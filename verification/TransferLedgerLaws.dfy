/** What the transfer client guarantees: exact effects of every call on fresh and on replayed
    chains, hold totals that equal the scan they replace, solvency and conservation over runs. */
module TransferLedgerLaws {
  import opened Sequences
  import opened Sums
  import opened TransferLedger

  // ---------------------------------------------------------------------------
  // Effects of a list of transfers
  // ---------------------------------------------------------------------------

  /** What one settled transfer adds to the balance of `a`. */
  function Delta(t: Transfer, a: Account): int {
    (if t.credit == a then t.amount else 0) - (if t.debit == a then t.amount else 0)
  }

  function Reserve(t: Transfer, a: Account): int {
    if t.debit == a then t.amount else 0
  }

  function Deltas(ts: seq<Transfer>, a: Account): int {
    if ts == [] then 0 else Delta(ts[0], a) + Deltas(ts[1..], a)
  }

  function Reserves(ts: seq<Transfer>, a: Account): int {
    if ts == [] then 0 else Reserve(ts[0], a) + Reserves(ts[1..], a)
  }

  /** The transfers of `ts` that settle at once. */
  function Direct(ts: seq<Transfer>): (r: seq<Transfer>)
    ensures forall i :: 0 <= i < |r| ==> !r[i].pending && r[i] in ts
  {
    if ts == [] then [] else if ts[0].pending then Direct(ts[1..]) else [ts[0]] + Direct(ts[1..])
  }

  /** The transfers of `ts` that only reserve funds. */
  function Holds(ts: seq<Transfer>): (r: seq<Transfer>)
    ensures forall i :: 0 <= i < |r| ==> r[i].pending && r[i] in ts
  {
    if ts == [] then [] else if ts[0].pending then [ts[0]] + Holds(ts[1..]) else Holds(ts[1..])
  }

  function Ids(ts: seq<Transfer>): seq<TransferId> {
    seq(|ts|, i requires 0 <= i < |ts| => ts[i].id)
  }

  function InState(ts: seq<Transfer>, s: TransferState): seq<Transfer> {
    seq(|ts|, i requires 0 <= i < |ts| => ts[i].(state := s))
  }

  ghost predicate DistinctIds(ts: seq<Transfer>) {
    forall i, j :: 0 <= i < j < |ts| ==> ts[i].id != ts[j].id
  }

  ghost predicate Absent(l: Ledger, ts: seq<Transfer>) {
    forall i :: 0 <= i < |ts| ==> ts[i].id !in l.transfers
  }

  ghost predicate Present(l: Ledger, ts: seq<Transfer>) {
    forall i :: 0 <= i < |ts| ==> ts[i].id in l.transfers && l.transfers[ts[i].id] == ts[i]
  }

  ghost predicate AllPending(ts: seq<Transfer>) {
    forall i :: 0 <= i < |ts| ==> ts[i].pending
  }

  ghost predicate NewRecords(ts: seq<Transfer>) {
    forall i :: 0 <= i < |ts| ==> ts[i].state == PENDING
  }

  /** `m` with every transfer of `ts` stored under its own ID. */
  function Store(m: map<TransferId, Transfer>, ts: seq<Transfer>): map<TransferId, Transfer>
    decreases |ts|
  {
    if ts == [] then m else Store(m[ts[0].id := ts[0]], ts[1..])
  }

  lemma {:induction false} StoreLookup(m: map<TransferId, Transfer>, ts: seq<Transfer>)
    requires DistinctIds(ts)
    ensures forall i :: 0 <= i < |ts| ==> ts[i].id in Store(m, ts) && Store(m, ts)[ts[i].id] == ts[i]
    ensures forall id :: id !in Ids(ts) ==> (id in Store(m, ts) <==> id in m)
    ensures forall id :: id !in Ids(ts) && id in m ==> Store(m, ts)[id] == m[id]
    decreases |ts|
  {
    if ts != [] {
      var m1 := m[ts[0].id := ts[0]];
      StoreLookup(m1, ts[1..]);
      assert forall i :: 0 <= i < |ts[1..]| ==> ts[1..][i] == ts[i + 1];
      assert forall i :: 0 <= i < |ts[1..]| ==> Ids(ts[1..])[i] == Ids(ts)[i + 1];
      assert Ids(ts)[0] == ts[0].id;
      assert ts[0].id !in Ids(ts[1..]);
      forall i | 0 <= i < |ts|
        ensures ts[i].id in Store(m, ts) && Store(m, ts)[ts[i].id] == ts[i]
      {
        if i > 0 { assert ts[i] == ts[1..][i - 1]; }
      }
    }
  }

  // ---------------------------------------------------------------------------
  // Creating a chain of new transfers
  // ---------------------------------------------------------------------------

  ghost predicate Effect(l: Ledger, l': Ledger, ts: seq<Transfer>) {
    && l'.transfers == Store(l.transfers, ts)
    && (forall a :: Bal(l', a) == Bal(l, a) + Deltas(Direct(ts), a))
    && (forall a :: Held(l', a) == Held(l, a) + Reserves(Holds(ts), a))
  }

  lemma {:induction false} ConsSums(t: Transfer, ts: seq<Transfer>, a: Account)
    ensures Deltas([t] + ts, a) == Delta(t, a) + Deltas(ts, a)
    ensures Reserves([t] + ts, a) == Reserve(t, a) + Reserves(ts, a)
  {
    assert ([t] + ts)[1..] == ts;
  }

  function InsertAll(l: Ledger, ts: seq<Transfer>): Ledger
    decreases |ts|
  {
    if ts == [] then l else InsertAll(Insert(l, ts[0]), ts[1..])
  }

  lemma {:induction false} InsertAllEffect(l: Ledger, ts: seq<Transfer>)
    ensures InsertAll(l, ts).transfers == Store(l.transfers, ts)
    ensures forall a :: Bal(InsertAll(l, ts), a) == Bal(l, a) + Deltas(Direct(ts), a)
    ensures forall a :: Held(InsertAll(l, ts), a) == Held(l, a) + Reserves(Holds(ts), a)
    decreases |ts|
  {
    if ts != [] {
      var l1 := Insert(l, ts[0]);
      InsertAllEffect(l1, ts[1..]);
      forall a
        ensures Bal(InsertAll(l, ts), a) == Bal(l, a) + Deltas(Direct(ts), a)
        ensures Held(InsertAll(l, ts), a) == Held(l, a) + Reserves(Holds(ts), a)
      {
        ConsSums(ts[0], Direct(ts[1..]), a);
        ConsSums(ts[0], Holds(ts[1..]), a);
      }
    }
  }

  lemma {:induction false} CreateLoopInserts(l: Ledger, ts: seq<Transfer>, created: seq<Transfer>, failOnLeg: string)
    returns (k: nat)
    requires DistinctIds(ts) && Absent(l, ts)
    ensures k <= |ts|
    ensures var r := CreateLoop(l, ts, created, failOnLeg);
      && r.created == created + ts[..k]
      && r.ledger == InsertAll(l, ts[..k])
      && (forall i :: 0 <= i < k ==> ts[i].amount > 0)
      && (if r.ok then k == |ts| else k < |ts| && Refuses(r.ledger, ts[k], failOnLeg))
    decreases |ts|
  {
    if ts == [] || Refuses(l, ts[0], failOnLeg) {
      k := 0;
    } else {
      var t, rest := ts[0], ts[1..];
      assert forall i :: 0 <= i < |rest| ==> rest[i] == ts[i + 1];
      var k1 := CreateLoopInserts(Insert(l, t), rest, created + [t], failOnLeg);
      k := k1 + 1;
      PrefixStep(created, ts, k1);
      assert forall i :: 0 < i < k ==> ts[i] == rest[i - 1];
    }
  }

  lemma {:induction false} CreateLoopFresh(l: Ledger, ts: seq<Transfer>, failOnLeg: string) returns (k: nat)
    requires DistinctIds(ts) && Absent(l, ts)
    ensures k <= |ts|
    ensures var r := CreateLoop(l, ts, [], failOnLeg);
      && r.created == ts[..k]
      && Effect(l, r.ledger, ts[..k])
      && (forall i :: 0 <= i < k ==> ts[i].amount > 0)
      && (if r.ok then k == |ts| else k < |ts| && Refuses(r.ledger, ts[k], failOnLeg))
  {
    k := CreateLoopInserts(l, ts, [], failOnLeg);
    assert [] + ts[..k] == ts[..k];
    InsertAllEffect(l, ts[..k]);
  }

  /** Rolling back transfers that are stored as new records removes them and releases each amount. */
  lemma {:induction false} RollbackFresh(m: map<TransferId, Transfer>, l: Ledger, ts: seq<Transfer>)
    requires DistinctIds(ts) && NewRecords(ts)
    requires forall i :: 0 <= i < |ts| ==> ts[i].id !in m
    requires l.transfers == Store(m, ts)
    ensures Rollback(l, ts).transfers == m
    ensures forall a :: Bal(Rollback(l, ts), a) == Bal(l, a)
    ensures forall a :: Held(Rollback(l, ts), a) == Held(l, a) - Reserves(ts, a)
    decreases |ts|
  {
    if ts != [] {
      assert forall i :: 0 <= i < |ts[1..]| ==> ts[1..][i] == ts[i + 1];
      StoreLookup(m, ts);
      StoreWithoutFirst(m, ts);
      RollbackFresh(m, RollbackOne(l, ts[0]), ts[1..]);
    }
  }

  lemma {:induction false} StoreWithoutFirst(m: map<TransferId, Transfer>, ts: seq<Transfer>)
    requires ts != [] && DistinctIds(ts) && ts[0].id !in m
    ensures Store(m, ts) - {ts[0].id} == Store(m, ts[1..])
  {
    StoreCommutes(m, ts[0], ts[1..]);
    var rest := ts[1..];
    assert forall i :: 0 <= i < |rest| ==> rest[i] == ts[i + 1];
    StoreLookup(m, rest);
    assert ts[0].id !in Ids(rest);
  }

  lemma {:induction false} StoreCommutes(m: map<TransferId, Transfer>, t: Transfer, ts: seq<Transfer>)
    requires forall i :: 0 <= i < |ts| ==> ts[i].id != t.id
    ensures Store(m[t.id := t], ts) == Store(m, ts)[t.id := t]
    decreases |ts|
  {
    if ts != [] {
      assert m[t.id := t][ts[0].id := ts[0]] == m[ts[0].id := ts[0]][t.id := t];
      StoreCommutes(m[ts[0].id := ts[0]], t, ts[1..]);
    }
  }

  /** Creating a chain of unseen, distinct transfers. On success the whole chain is stored with its
      full effect. On failure the records disappear again, but a direct leg that was applied before the
      refusal keeps its effect on balances and is subtracted from a hold total it never entered. */
  lemma {:induction false} CreateFresh(l: Ledger, ts: seq<Transfer>, failOnLeg: string) returns (k: nat)
    requires DistinctIds(ts) && Absent(l, ts) && NewRecords(ts)
    ensures k <= |ts|
    ensures var r := Create(l, ts, failOnLeg);
      && r.created == ts[..k]
      && (forall i :: 0 <= i < k ==> ts[i].amount > 0)
      && (r.ok ==> k == |ts| && Effect(l, r.ledger, ts))
      && (!r.ok ==>
        && k < |ts|
        && r.ledger.transfers == l.transfers
        && (forall a :: Bal(r.ledger, a) == Bal(l, a) + Deltas(Direct(ts[..k]), a))
        && (forall a :: Held(r.ledger, a) == Held(l, a) - Reserves(Direct(ts[..k]), a)))
  {
    k := CreateLoopFresh(l, ts, failOnLeg);
    var r := CreateLoop(l, ts, [], failOnLeg);
    if r.ok {
      assert ts[..k] == ts;
    } else {
      RollbackFresh(l.transfers, r.ledger, ts[..k]);
      forall a ensures Reserves(ts[..k], a) == Reserves(Holds(ts[..k]), a) + Reserves(Direct(ts[..k]), a) {
        ReservesSplit(ts[..k], a);
      }
    }
  }

  lemma {:induction false} ReservesSplit(ts: seq<Transfer>, a: Account)
    ensures Reserves(ts, a) == Reserves(Holds(ts), a) + Reserves(Direct(ts), a)
  {
    if ts != [] {
      ReservesSplit(ts[1..], a);
      ConsSums(ts[0], Holds(ts[1..]), a);
      ConsSums(ts[0], Direct(ts[1..]), a);
    }
  }

  lemma {:induction false} ReservesPositive(ts: seq<Transfer>, a: Account)
    requires forall i :: 0 <= i < |ts| ==> ts[i].amount > 0
    ensures Reserves(ts, a) >= 0
    ensures ts != [] && ts[0].debit == a ==> Reserves(ts, a) > 0
  {
    if ts != [] { ReservesPositive(ts[1..], a); }
  }

  /** A two-leg reversal whose second leg is refused: the first leg's money stays moved although its
      record is gone, and the payer's hold total goes negative. */
  lemma {:induction false} DirectChainIsNotAtomic()
    ensures
      var t1 := Transfer("k|x", 1, 9, 5, false, true, "k", "x", PENDING);
      var t2 := Transfer("k|y", 2, 9, 5, false, false, "k", "y", PENDING);
      var l := Ledger(map[], map[1 := 5], map[]);
      var r := Create(l, [t1, t2], "");
      !r.ok && r.ledger.transfers == map[] && Bal(r.ledger, 1) == 0 && Bal(r.ledger, 9) == 5 && Held(r.ledger, 1) == -5
  {
    var t1 := Transfer("k|x", 1, 9, 5, false, true, "k", "x", PENDING);
    var t2 := Transfer("k|y", 2, 9, 5, false, false, "k", "y", PENDING);
    var l := Ledger(map[], map[1 := 5], map[]);
    assert "k|x"[2] != "k|y"[2];
    var l1 := Insert(l, t1);
    assert [t1, t2][1..] == [t2] && [] + [t1] == [t1];
    assert CreateLoop(l1, [t2], [t1], "") == Created(false, l1, [t1]);
    assert Rollback(l1, [t1]) == Rollback(RollbackOne(l1, t1), [t1][1..]);
  }

  // ---------------------------------------------------------------------------
  // Replays
  // ---------------------------------------------------------------------------

  /** Every ID already stored: the call succeeds, returns the stored records and changes nothing. */
  lemma {:induction false} CreateLoopReplay(l: Ledger, ts: seq<Transfer>, created: seq<Transfer>, failOnLeg: string)
    requires forall i :: 0 <= i < |ts| ==> ts[i].id in l.transfers
    ensures var r := CreateLoop(l, ts, created, failOnLeg);
      && r.ok && r.ledger == l
      && |r.created| == |created| + |ts| && r.created[..|created|] == created
      && (forall i :: 0 <= i < |ts| ==> r.created[|created| + i] == l.transfers[ts[i].id])
    decreases |ts|
  {
    if ts != [] {
      assert forall i :: 0 <= i < |ts[1..]| ==> ts[1..][i] == ts[i + 1];
      var c1 := created + [l.transfers[ts[0].id]];
      CreateLoopReplay(l, ts[1..], c1, failOnLeg);
      var r := CreateLoop(l, ts, created, failOnLeg);
      assert r.created[..|created|] == r.created[..|c1|][..|created|];
      forall i | 0 <= i < |ts| ensures r.created[|created| + i] == l.transfers[ts[i].id] {
        if i == 0 {
          assert r.created[|created|] == r.created[..|c1|][|created|];
        } else {
          assert r.created[|c1| + (i - 1)] == l.transfers[ts[1..][i - 1].id];
        }
      }
    }
  }

  lemma {:induction false} CreateReplay(l: Ledger, ts: seq<Transfer>, failOnLeg: string)
    requires forall i :: 0 <= i < |ts| ==> ts[i].id in l.transfers
    ensures var r := Create(l, ts, failOnLeg);
      && r.ok && r.ledger == l && |r.created| == |ts|
      && (forall i :: 0 <= i < |ts| ==> r.created[i] == l.transfers[ts[i].id])
  {
    CreateLoopReplay(l, ts, [], failOnLeg);
  }

  // ---------------------------------------------------------------------------
  // Posting and voiding a whole chain
  // ---------------------------------------------------------------------------

  lemma {:induction false} PostChain(l: Ledger, ts: seq<Transfer>)
    requires DistinctIds(ts) && NewRecords(ts) && Present(l, ts)
    ensures forall i :: 0 <= i < |ts| ==> Ids(ts)[i] in l.transfers
    ensures var l' := PostLoop(l, Ids(ts));
      && l'.transfers == Store(l.transfers, InState(ts, POSTED))
      && (forall a :: Bal(l', a) == Bal(l, a) + Deltas(ts, a))
      && (forall a :: Held(l', a) == Held(l, a) - Reserves(ts, a))
    decreases |ts|
  {
    if ts != [] {
      assert forall i :: 0 <= i < |ts[1..]| ==> ts[1..][i] == ts[i + 1];
      assert Ids(ts)[1..] == Ids(ts[1..]);
      assert Ids(ts)[0] == ts[0].id;
      assert InState(ts, POSTED)[1..] == InState(ts[1..], POSTED);
      assert InState(ts, POSTED)[0] == ts[0].(state := POSTED);
      var l1 := PostOne(l, ts[0].id);
      assert l1.transfers == l.transfers[ts[0].id := ts[0].(state := POSTED)];
      assert forall a :: Bal(l1, a) == Bal(l, a) + Delta(ts[0], a) && Held(l1, a) == Held(l, a) - Reserve(ts[0], a);
      hide PostOne, Bal, Held, Delta, Reserve;
      PostChain(l1, ts[1..]);
    }
  }

  lemma {:induction false} PostReplay(l: Ledger, ids: seq<TransferId>)
    requires forall i :: 0 <= i < |ids| ==> ids[i] in l.transfers && l.transfers[ids[i]].state == POSTED
    ensures PostLoop(l, ids) == l
  {
    if ids != [] {
      assert forall i :: 0 <= i < |ids[1..]| ==> ids[1..][i] == ids[i + 1];
      PostReplay(l, ids[1..]);
    }
  }

  lemma {:induction false} VoidChain(l: Ledger, ts: seq<Transfer>)
    requires DistinctIds(ts) && NewRecords(ts) && Present(l, ts)
    ensures forall i :: 0 <= i < |ts| ==> Ids(ts)[i] in l.transfers
    ensures var l' := VoidLoop(l, Ids(ts));
      && l'.transfers == Store(l.transfers, InState(ts, VOIDED))
      && (forall a :: Bal(l', a) == Bal(l, a))
      && (forall a :: Held(l', a) == Held(l, a) - Reserves(ts, a))
    decreases |ts|
  {
    if ts != [] {
      assert forall i :: 0 <= i < |ts[1..]| ==> ts[1..][i] == ts[i + 1];
      assert Ids(ts)[1..] == Ids(ts[1..]);
      assert Ids(ts)[0] == ts[0].id;
      assert InState(ts, VOIDED)[1..] == InState(ts[1..], VOIDED);
      assert InState(ts, VOIDED)[0] == ts[0].(state := VOIDED);
      VoidChain(VoidOne(l, ts[0].id), ts[1..]);
    }
  }

  // ---------------------------------------------------------------------------
  // What a settled record can still become
  // ---------------------------------------------------------------------------

  /** Every listed record is stored with state `s`. */
  ghost predicate AllAre(l: Ledger, ids: seq<TransferId>, s: TransferState) {
    forall i :: 0 <= i < |ids| ==> ids[i] in l.transfers && l.transfers[ids[i]].state == s
  }

  /** The same records as in `l`, but for the state of the listed ones. */
  ghost predicate SameBut(l: Ledger, l': Ledger, ids: seq<TransferId>) {
    && l'.transfers.Keys == l.transfers.Keys
    && forall id :: id in l.transfers ==>
      l'.transfers[id] == l.transfers[id] || (id in ids && l'.transfers[id] == l.transfers[id].(state := l'.transfers[id].state))
  }

  lemma {:induction false} SettleStep(l: Ledger, l1: Ledger, l2: Ledger, ids: seq<TransferId>, s: TransferState)
    requires ids != [] && ids[0] in l.transfers && l1.transfers == l.transfers[ids[0] := l.transfers[ids[0]].(state := s)]
    requires AllAre(l2, ids[1..], s) && SameBut(l1, l2, ids[1..])
    requires forall id :: id in l1.transfers && l1.transfers[id].state == s ==> l2.transfers[id].state == s
    ensures AllAre(l2, ids, s) && SameBut(l, l2, ids)
    ensures forall id :: id in l.transfers && l.transfers[id].state == s ==> l2.transfers[id].state == s
  {
    TailAt(ids);
    assert ids == [ids[0]] + ids[1..];
  }

  lemma {:induction false} NothingSettled(l: Ledger, s: TransferState)
    ensures AllAre(l, [], s) && SameBut(l, l, [])
  {
  }

  lemma {:induction false} PostLoopRecords(l: Ledger, ids: seq<TransferId>)
    requires forall i :: 0 <= i < |ids| ==> ids[i] in l.transfers && l.transfers[ids[i]].state != VOIDED
    ensures AllAre(PostLoop(l, ids), ids, POSTED) && SameBut(l, PostLoop(l, ids), ids)
    ensures forall id :: id in l.transfers && l.transfers[id].state == POSTED ==> PostLoop(l, ids).transfers[id].state == POSTED
    decreases |ids|
  {
    if ids == [] {
      NothingSettled(l, POSTED);
    } else {
      TailAt(ids);
      var l1 := PostOne(l, ids[0]);
      assert l1.transfers == l.transfers[ids[0] := l.transfers[ids[0]].(state := POSTED)];
      hide PostOne, AllAre, SameBut;
      PostLoopRecords(l1, ids[1..]);
      SettleStep(l, l1, PostLoop(l1, ids[1..]), ids, POSTED);
    }
  }

  lemma {:induction false} VoidLoopRecords(l: Ledger, ids: seq<TransferId>)
    requires forall i :: 0 <= i < |ids| ==> ids[i] in l.transfers && l.transfers[ids[i]].state != POSTED
    ensures AllAre(VoidLoop(l, ids), ids, VOIDED) && SameBut(l, VoidLoop(l, ids), ids)
    ensures forall id :: id in l.transfers && l.transfers[id].state == VOIDED ==> VoidLoop(l, ids).transfers[id].state == VOIDED
    decreases |ids|
  {
    if ids == [] {
      NothingSettled(l, VOIDED);
    } else {
      TailAt(ids);
      var l1 := VoidOne(l, ids[0]);
      assert l1.transfers == l.transfers[ids[0] := l.transfers[ids[0]].(state := VOIDED)];
      hide VoidOne, AllAre, SameBut;
      VoidLoopRecords(l1, ids[1..]);
      SettleStep(l, l1, VoidLoop(l1, ids[1..]), ids, VOIDED);
    }
  }

  /** A post that succeeds leaves every listed record POSTED and every other one alone; it succeeds exactly
      when nothing is injected and every listed record is there and not voided; else nothing changes. */
  lemma {:induction false} PostOutcome(l: Ledger, ids: seq<TransferId>, failOnPost: bool)
    ensures var o := Post(l, ids, failOnPost);
      && (o.ok <==> !failOnPost && forall i :: 0 <= i < |ids| ==>
            ids[i] in l.transfers && l.transfers[ids[i]].state in {PENDING, POSTED})
      && (o.ok ==> AllAre(o.ledger, ids, POSTED) && SameBut(l, o.ledger, ids))
      && (!o.ok ==> o.ledger == l)
  {
    if Post(l, ids, failOnPost).ok { PostLoopRecords(l, ids); }
  }

  /** The same for voiding. */
  lemma {:induction false} VoidOutcome(l: Ledger, ids: seq<TransferId>)
    ensures var o := Void(l, ids);
      && (o.ok <==> forall i :: 0 <= i < |ids| ==> ids[i] in l.transfers && l.transfers[ids[i]].state in {PENDING, VOIDED})
      && (o.ok ==> AllAre(o.ledger, ids, VOIDED) && SameBut(l, o.ledger, ids))
      && (!o.ok ==> o.ledger == l)
  {
    if Void(l, ids).ok { VoidLoopRecords(l, ids); }
  }

  /** What has been voided can never be posted, and what has been posted never voided; doing the same again
      succeeds and changes nothing. */
  lemma {:induction false} SettledForGood(l: Ledger, ids: seq<TransferId>, failOnPost: bool)
    requires ids != []
    ensures Void(l, ids).ok ==>
      var l' := Void(l, ids).ledger; Post(l', ids, failOnPost) == Outcome(false, l') && Void(l', ids) == Outcome(true, l')
    ensures Post(l, ids, false).ok ==>
      var l' := Post(l, ids, false).ledger; Void(l', ids) == Outcome(false, l') && Post(l', ids, false) == Outcome(true, l')
  {
    PostOutcome(l, ids, false);
    VoidOutcome(l, ids);
    if Void(l, ids).ok {
      var l' := Void(l, ids).ledger;
      assert ids[0] in l'.transfers && l'.transfers[ids[0]].state == VOIDED;
      VoidReplay(l', ids);
    }
    if Post(l, ids, false).ok {
      var l' := Post(l, ids, false).ledger;
      assert ids[0] in l'.transfers && l'.transfers[ids[0]].state == POSTED;
      PostReplay(l', ids);
    }
  }

  lemma {:induction false} VoidReplay(l: Ledger, ids: seq<TransferId>)
    requires AllAre(l, ids, VOIDED)
    ensures VoidLoop(l, ids) == l
  {
    if ids != [] {
      TailAt(ids);
      VoidReplay(l, ids[1..]);
    }
  }

  /** A chain of holds that has been stored: voiding it succeeds, and after that it can no longer be posted. */
  lemma {:induction false} VoidedChainCannotBePosted(l: Ledger, ts: seq<Transfer>, failOnPost: bool)
    requires DistinctIds(ts) && NewRecords(ts) && Present(l, ts) && ts != []
    ensures Void(l, Ids(ts)).ok && !Post(Void(l, Ids(ts)).ledger, Ids(ts), failOnPost).ok
  {
    assert forall i :: 0 <= i < |ts| ==> Ids(ts)[i] == ts[i].id;
    VoidOutcome(l, Ids(ts));
    SettledForGood(l, Ids(ts), failOnPost);
  }

  // ---------------------------------------------------------------------------
  // Hold chains and reversal chains
  // ---------------------------------------------------------------------------

  function LegTotal(legs: seq<Leg>): int {
    if legs == [] then 0 else legs[0].amount + LegTotal(legs[1..])
  }

  function Amounts(ts: seq<Transfer>): int {
    if ts == [] then 0 else ts[0].amount + Amounts(ts[1..])
  }

  lemma {:induction false} HoldLoopOkIff(l: Ledger, ts: seq<Transfer>, created: seq<Transfer>, failOnLeg: string, source: Account)
    requires DistinctIds(ts) && Absent(l, ts)
    requires forall i :: 0 <= i < |ts| ==> ts[i].pending && ts[i].debit == source
    ensures CreateLoop(l, ts, created, failOnLeg).ok <==>
      ts == [] ||
      ((forall i :: 0 <= i < |ts| ==> ts[i].amount > 0 && (failOnLeg == "" || ts[i].leg != failOnLeg))
        && Amounts(ts) <= Bal(l, source) - Held(l, source))
    decreases |ts|
  {
    if ts != [] {
      TailAt(ts);
      if !Refuses(l, ts[0], failOnLeg) {
        HoldLoopOkIff(Insert(l, ts[0]), ts[1..], created + [ts[0]], failOnLeg, source);
      } else if forall i :: 0 <= i < |ts| ==> ts[i].amount > 0 {
        AmountsAtLeastFirst(ts);
      }
    }
  }

  lemma {:induction false} AmountsAtLeastFirst(ts: seq<Transfer>)
    requires ts != [] && forall i :: 0 <= i < |ts| ==> ts[i].amount > 0
    ensures Amounts(ts) >= ts[0].amount
  {
    TailAt(ts);
    if |ts| > 1 { AmountsAtLeastFirst(ts[1..]); }
  }

  lemma {:induction false} SameAmounts(ts: seq<Transfer>, legs: seq<Leg>)
    requires |ts| == |legs| && forall i :: 0 <= i < |ts| ==> ts[i].amount == legs[i].amount
    ensures Amounts(ts) == LegTotal(legs)
  {
    if ts != [] {
      TailAt(ts);
      TailAt(legs);
      SameAmounts(ts[1..], legs[1..]);
    }
  }

  /** A fresh hold chain is created if and only if it is empty, or every leg is positive and no
      failure is injected on it, and the source can cover all legs on top of what it already holds. */
  lemma {:induction false} HoldChainOkIff(l: Ledger, key: string, source: Account, legs: seq<Leg>, failOnLeg: string)
    requires DistinctIds(HoldChain(key, source, legs)) && Absent(l, HoldChain(key, source, legs))
    ensures Create(l, HoldChain(key, source, legs), failOnLeg).ok <==>
      legs == [] ||
      ((forall i :: 0 <= i < |legs| ==> legs[i].amount > 0 && (failOnLeg == "" || legs[i].name != failOnLeg))
        && LegTotal(legs) <= Bal(l, source) - Held(l, source))
  {
    var ts := HoldChain(key, source, legs);
    assert forall i :: 0 <= i < |ts| ==> ts[i].amount == legs[i].amount && ts[i].leg == legs[i].name;
    HoldLoopOkIff(l, ts, [], failOnLeg, source);
    SameAmounts(ts, legs);
  }

  /** What the legs bring to `a`. */
  function PaidInto(legs: seq<Leg>, a: Account): int {
    if legs == [] then 0 else (if legs[0].dest == a then legs[0].amount else 0) + PaidInto(legs[1..], a)
  }

  lemma {:induction false} ChainDeltas(ts: seq<Transfer>, legs: seq<Leg>, source: Account, a: Account)
    requires |ts| == |legs|
    requires forall i :: 0 <= i < |ts| ==>
      ts[i].debit == source && ts[i].credit == legs[i].dest && ts[i].amount == legs[i].amount
    ensures Deltas(ts, a) == PaidInto(legs, a) - (if a == source then LegTotal(legs) else 0)
    ensures Reserves(ts, a) == if a == source then LegTotal(legs) else 0
  {
    if ts != [] {
      TailAt(ts);
      TailAt(legs);
      ChainDeltas(ts[1..], legs[1..], source, a);
    }
  }

  /** A hold chain reserves the sum of its legs on the source, and once posted takes it from there and
      brings every destination exactly the legs that name it. */
  lemma {:induction false} HoldChainPays(key: string, source: Account, legs: seq<Leg>, a: Account)
    ensures Deltas(HoldChain(key, source, legs), a) == PaidInto(legs, a) - (if a == source then LegTotal(legs) else 0)
    ensures Reserves(HoldChain(key, source, legs), a) == if a == source then LegTotal(legs) else 0
  {
    ChainDeltas(HoldChain(key, source, legs), legs, source, a);
  }

  lemma {:induction false} MirrorDeltas(ts: seq<Transfer>, rs: seq<Transfer>, a: Account)
    requires |ts| == |rs|
    requires forall i :: 0 <= i < |ts| ==> rs[i].debit == ts[i].credit && rs[i].credit == ts[i].debit && rs[i].amount == ts[i].amount
    ensures Deltas(rs, a) == -Deltas(ts, a)
  {
    if ts != [] {
      TailAt(ts);
      TailAt(rs);
      MirrorDeltas(ts[1..], rs[1..], a);
    }
  }

  /** A reversal chain undoes its hold chain on every account. */
  lemma {:induction false} ReversalCancels(key: string, source: Account, legs: seq<Leg>, a: Account)
    ensures Deltas(ReversalChain(key, source, legs), a) == -Deltas(HoldChain(key, source, legs), a)
  {
    MirrorDeltas(HoldChain(key, source, legs), ReversalChain(key, source, legs), a);
  }

  lemma {:induction false} DirectOfDirect(ts: seq<Transfer>)
    requires forall i :: 0 <= i < |ts| ==> !ts[i].pending
    ensures Direct(ts) == ts && Holds(ts) == []
  {
    if ts != [] {
      TailAt(ts);
      DirectOfDirect(ts[1..]);
    }
  }

  lemma {:induction false} HoldsOfHolds(ts: seq<Transfer>)
    requires AllPending(ts)
    ensures Holds(ts) == ts && Direct(ts) == []
  {
    if ts != [] {
      TailAt(ts);
      HoldsOfHolds(ts[1..]);
    }
  }
}
