/** What a create call does, read off the ledger and the chain before the call: the leg it stops at,
    the records it touches and the ledger it has built when it stops. Chains are arbitrary: legs may be
    stored already, repeat an ID, reserve or settle at once. */
module TransferLedgerCreate {
  import opened Sequences
  import opened Sums
  import opened TransferLedger
  import opened TransferLedgerLaws

  /** The first position from `k` on whose leg has the ID of `ts[i]`. */
  function FirstFrom(ts: seq<Transfer>, i: nat, k: nat): (r: nat)
    requires k <= i < |ts|
    ensures k <= r <= i && ts[r].id == ts[i].id
    ensures forall j :: k <= j < r ==> ts[j].id != ts[i].id
    decreases i - k
  {
    if ts[k].id == ts[i].id then k else FirstFrom(ts, i, k + 1)
  }

  /** A leg that is neither stored nor named earlier in the chain: the ones a create inserts. */
  predicate Unseen(m: map<TransferId, Transfer>, ts: seq<Transfer>, i: nat)
    requires i < |ts|
  {
    ts[i].id !in m && FirstFrom(ts, i, 0) == i
  }

  /** The unseen legs among the first `k`, in order. */
  function NewLegs(m: map<TransferId, Transfer>, ts: seq<Transfer>, k: nat): seq<Transfer>
    requires k <= |ts|
  {
    if k == 0 then [] else NewLegs(m, ts, k - 1) + (if Unseen(m, ts, k - 1) then [ts[k - 1]] else [])
  }

  /** Leg `i` is new and is refused: a failure is injected on it, its amount is not positive, or its
      account cannot cover it after everything the new legs before it move and reserve. */
  predicate RefusedAt(l: Ledger, ts: seq<Transfer>, failOnLeg: string, i: nat)
    requires i < |ts|
  {
    var t, before := ts[i], NewLegs(l.transfers, ts, i);
    var funds := Bal(l, t.debit) + Deltas(Direct(before), t.debit);
    var reserved := Held(l, t.debit) + Reserves(Holds(before), t.debit);
    && Unseen(l.transfers, ts, i)
    && ((failOnLeg != "" && t.leg == failOnLeg)
        || t.amount <= 0
        || (if t.pending then funds - reserved < t.amount else funds < t.amount))
  }

  function AcceptedFrom(l: Ledger, ts: seq<Transfer>, failOnLeg: string, k: nat): (r: nat)
    requires k <= |ts|
    ensures k <= r <= |ts|
    ensures forall i :: k <= i < r ==> !RefusedAt(l, ts, failOnLeg, i)
    ensures r < |ts| ==> RefusedAt(l, ts, failOnLeg, r)
    decreases |ts| - k
  {
    if k == |ts| || RefusedAt(l, ts, failOnLeg, k) then k else AcceptedFrom(l, ts, failOnLeg, k + 1)
  }

  /** How many legs are accepted before the first refused one. */
  function Accepted(l: Ledger, ts: seq<Transfer>, failOnLeg: string): (r: nat)
    ensures r <= |ts|
  {
    AcceptedFrom(l, ts, failOnLeg, 0)
  }

  /** The record that accepting leg `i` touches: the stored one, or the first leg of the chain with its ID. */
  function Touched(m: map<TransferId, Transfer>, ts: seq<Transfer>, i: nat): Transfer
    requires i < |ts|
  {
    if ts[i].id in m then m[ts[i].id] else ts[FirstFrom(ts, i, 0)]
  }

  function TouchedLegs(m: map<TransferId, Transfer>, ts: seq<Transfer>, k: nat): seq<Transfer>
    requires k <= |ts|
  {
    seq(k, i requires 0 <= i < k => Touched(m, ts, i))
  }

  lemma {:induction false} InsertAllStep(l: Ledger, ts: seq<Transfer>, t: Transfer)
    ensures InsertAll(l, ts + [t]) == Insert(InsertAll(l, ts), t)
    decreases |ts|
  {
    if ts == [] {
      assert ts + [t] == [t] && [t][1..] == [];
    } else {
      assert (ts + [t])[0] == ts[0] && (ts + [t])[1..] == ts[1..] + [t];
      InsertAllStep(Insert(l, ts[0]), ts[1..], t);
    }
  }

  /** The ledger a create has built once it has accepted the first `k` legs. */
  function Reached(l: Ledger, ts: seq<Transfer>, k: nat): Ledger
    requires k <= |ts|
  {
    InsertAll(l, NewLegs(l.transfers, ts, k))
  }

  lemma {:induction false} ReachedStep(l: Ledger, ts: seq<Transfer>, k: nat)
    requires k < |ts|
    ensures Reached(l, ts, k + 1) ==
      (if Unseen(l.transfers, ts, k) then Insert(Reached(l, ts, k), ts[k]) else Reached(l, ts, k))
  {
    var u := NewLegs(l.transfers, ts, k);
    InsertAllStep(l, u, ts[k]);
    assert u + [] == u;
  }

  lemma {:induction false} FirstIsFirst(ts: seq<Transfer>, i: nat)
    requires i < |ts|
    ensures FirstFrom(ts, FirstFrom(ts, i, 0), 0) == FirstFrom(ts, i, 0)
  {
  }

  ghost predicate Names(ts: seq<Transfer>, k: nat, id: TransferId)
    requires k <= |ts|
  {
    exists i :: 0 <= i < k && ts[i].id == id
  }

  /** `s` holds exactly the IDs of `m` and of the first `k` legs. */
  ghost predicate SameIds(m: map<TransferId, Transfer>, ts: seq<Transfer>, k: nat, s: map<TransferId, Transfer>)
    requires k <= |ts|
  {
    forall id :: id in s <==> id in m || Names(ts, k, id)
  }

  /** ... with the records of `m` unchanged and the touched record under the ID of every leg. */
  ghost predicate SameRecords(m: map<TransferId, Transfer>, ts: seq<Transfer>, k: nat, s: map<TransferId, Transfer>)
    requires k <= |ts|
  {
    && (forall id :: id in m ==> id in s && s[id] == m[id])
    && (forall i :: 0 <= i < k ==> ts[i].id in s && s[ts[i].id] == Touched(m, ts, i))
  }

  lemma {:induction false} UnseenIff(m: map<TransferId, Transfer>, ts: seq<Transfer>, k: nat)
    requires k < |ts|
    ensures Unseen(m, ts, k) <==> ts[k].id !in m && !Names(ts, k, ts[k].id)
  {
  }

  lemma {:induction false} SameIdsStep(m: map<TransferId, Transfer>, ts: seq<Transfer>, k: nat, s: map<TransferId, Transfer>)
    requires k < |ts| && SameIds(m, ts, k, s)
    ensures ts[k].id !in s <==> Unseen(m, ts, k)
    ensures SameIds(m, ts, k + 1, if Unseen(m, ts, k) then s[ts[k].id := ts[k]] else s)
  {
    UnseenIff(m, ts, k);
    hide Unseen;
    forall id ensures Names(ts, k + 1, id) <==> Names(ts, k, id) || id == ts[k].id {
      if Names(ts, k, id) {
        var i :| 0 <= i < k && ts[i].id == id;
        assert ts[i].id == id;
      }
    }
  }

  lemma {:induction false} SameRecordsStep(m: map<TransferId, Transfer>, ts: seq<Transfer>, k: nat, s: map<TransferId, Transfer>)
    requires k < |ts| && SameRecords(m, ts, k, s)
    requires Unseen(m, ts, k) ==> ts[k].id !in s
    ensures SameRecords(m, ts, k + 1, if Unseen(m, ts, k) then s[ts[k].id := ts[k]] else s)
  {
    var p, s1 := FirstFrom(ts, k, 0), if Unseen(m, ts, k) then s[ts[k].id := ts[k]] else s;
    FirstIsFirst(ts, k);
    assert ts[k].id in s1 && s1[ts[k].id] == Touched(m, ts, k) by {
      if p < k { assert s[ts[p].id] == Touched(m, ts, p); }
    }
    hide FirstFrom;
  }

  lemma {:induction false} InsertStores(l: Ledger, t: Transfer)
    ensures Insert(l, t).transfers == l.transfers[t.id := t]
  {
  }

  /** The ledger reached after `k` legs stores exactly the records it should. */
  ghost predicate ReachesRecords(l: Ledger, ts: seq<Transfer>, k: nat)
    requires k <= |ts|
  {
    && SameIds(l.transfers, ts, k, Reached(l, ts, k).transfers)
    && SameRecords(l.transfers, ts, k, Reached(l, ts, k).transfers)
  }

  lemma {:induction false} ReachedRecordsStep(l: Ledger, ts: seq<Transfer>, k: nat)
    requires k < |ts| && ReachesRecords(l, ts, k)
    ensures ReachesRecords(l, ts, k + 1)
  {
    hide SameIds, SameRecords, Reached, Unseen, Insert;
    var s := Reached(l, ts, k);
    SameIdsStep(l.transfers, ts, k, s.transfers);
    SameRecordsStep(l.transfers, ts, k, s.transfers);
    ReachedStep(l, ts, k);
    InsertStores(s, ts[k]);
  }

  lemma {:induction false} ReachedStart(l: Ledger, ts: seq<Transfer>)
    ensures ReachesRecords(l, ts, 0)
  {
    assert Reached(l, ts, 0) == l;
    forall id ensures !Names(ts, 0, id) {}
  }

  lemma {:induction false} ReachedRecords(l: Ledger, ts: seq<Transfer>, k: nat)
    requires k <= |ts|
    ensures ReachesRecords(l, ts, k)
    decreases k
  {
    hide ReachesRecords;
    if k == 0 {
      ReachedStart(l, ts);
    } else {
      ReachedRecords(l, ts, k - 1);
      ReachedRecordsStep(l, ts, k - 1);
    }
  }

  /** The closed form of a refusal is the test the create makes in the ledger it has built. */
  lemma {:induction false} RefusedAtIffRefuses(l: Ledger, ts: seq<Transfer>, failOnLeg: string, i: nat)
    requires i < |ts|
    ensures RefusedAt(l, ts, failOnLeg, i) <==>
      ts[i].id !in Reached(l, ts, i).transfers && Refuses(Reached(l, ts, i), ts[i], failOnLeg)
  {
    InsertAllEffect(l, NewLegs(l.transfers, ts, i));
    ReachedRecords(l, ts, i);
    SameIdsStep(l.transfers, ts, i, Reached(l, ts, i).transfers);
    hide NewLegs, Unseen, SameIds, SameRecords, InsertAll, Deltas, Reserves;
  }

  /** One leg that is not refused: the loop goes on with one more touched record. */
  lemma {:induction false} CreateStep(l: Ledger, ts: seq<Transfer>, failOnLeg: string, k: nat, created: seq<Transfer>)
    requires k < |ts| && !RefusedAt(l, ts, failOnLeg, k)
    ensures CreateLoop(Reached(l, ts, k), ts[k..], created, failOnLeg) ==
      CreateLoop(Reached(l, ts, k + 1), ts[k + 1..], created + [Touched(l.transfers, ts, k)], failOnLeg)
  {
    var s, t := Reached(l, ts, k), ts[k];
    ReachedRecords(l, ts, k);
    SameIdsStep(l.transfers, ts, k, s.transfers);
    ReachedStep(l, ts, k);
    RefusedAtIffRefuses(l, ts, failOnLeg, k);
    assert ts[k..][0] == t && ts[k..][1..] == ts[k + 1..];
    assert t.id in s.transfers ==> s.transfers[t.id] == Touched(l.transfers, ts, k) by {
      ReachedRecords(l, ts, k + 1);
    }
    hide Reached, RefusedAt, Refuses, SameIds, SameRecords, Insert;
  }

  lemma {:induction false} CreateStarts(l: Ledger, ts: seq<Transfer>)
    ensures Reached(l, ts, 0) == l && ts[0..] == ts && TouchedLegs(l.transfers, ts, 0) == []
  {
  }

  lemma {:induction false} TouchedStep(m: map<TransferId, Transfer>, ts: seq<Transfer>, k: nat)
    requires k < |ts|
    ensures TouchedLegs(m, ts, k + 1) == TouchedLegs(m, ts, k) + [Touched(m, ts, k)]
  {
    hide Touched;
  }

  lemma {:induction false} CreateReaches(l: Ledger, ts: seq<Transfer>, failOnLeg: string, k: nat)
    requires k <= |ts| && forall i :: 0 <= i < k ==> !RefusedAt(l, ts, failOnLeg, i)
    ensures CreateLoop(l, ts, [], failOnLeg) ==
      CreateLoop(Reached(l, ts, k), ts[k..], TouchedLegs(l.transfers, ts, k), failOnLeg)
    decreases k
  {
    hide CreateLoop, RefusedAt, Touched, TouchedLegs, Reached;
    if k == 0 {
      CreateStarts(l, ts);
    } else {
      CreateReaches(l, ts, failOnLeg, k - 1);
      CreateStep(l, ts, failOnLeg, k - 1, TouchedLegs(l.transfers, ts, k - 1));
      TouchedStep(l.transfers, ts, k - 1);
    }
  }

  /** Every create call, for every chain: it succeeds exactly when no leg is refused, and in any case it
      touches one record a leg up to the first refused one and has built the ledger of the new legs. */
  lemma {:induction false} CreateTouchesAccepted(l: Ledger, ts: seq<Transfer>, failOnLeg: string)
    ensures var r, k := CreateLoop(l, ts, [], failOnLeg), Accepted(l, ts, failOnLeg);
      && (r.ok <==> k == |ts|)
      && r.created == TouchedLegs(l.transfers, ts, k)
      && r.ledger == Reached(l, ts, k)
    ensures var r := Create(l, ts, failOnLeg);
      && r.created == TouchedLegs(l.transfers, ts, Accepted(l, ts, failOnLeg))
      && (r.ok <==> forall i :: 0 <= i < |ts| ==> !RefusedAt(l, ts, failOnLeg, i))
  {
    var k := Accepted(l, ts, failOnLeg);
    CreateReaches(l, ts, failOnLeg, k);
    if k < |ts| {
      RefusedAtIffRefuses(l, ts, failOnLeg, k);
      assert ts[k..][0] == ts[k];
    }
  }
}
