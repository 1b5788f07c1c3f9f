/** The two-phase transfer client of `ledger/fundsflow/tigerbeetle_flows.py`: the in-memory
    ledger with PENDING, POSTED and VOIDED transfers, its running hold totals, and the chain
    builders. Operations are functions on a `Ledger` value; `InMemoryTBClient` performs the same
    operations in place, one loop per loop of the source. */
module TransferLedger {
  import opened Sums

  type Account = int

  /** A transfer ID is the first 128 bits of SHA-256 over `key|leg`. The hash is taken to be
      collision free, so an ID is represented by the text that is hashed. */
  type TransferId = string

  function DeterministicTransferId(key: string, leg: string): TransferId {
    key + "|" + leg
  }

  datatype TransferState = PENDING | POSTED | VOIDED

  datatype Transfer = Transfer(
    id: TransferId, debit: Account, credit: Account, amount: int,
    pending: bool, linked: bool, key: string, leg: string, state: TransferState)

  /** What `InMemoryTBClient` stores. `balances` and `holds` read as zero where absent. */
  datatype Ledger = Ledger(transfers: map<TransferId, Transfer>, balances: map<Account, int>, holds: map<Account, int>)

  function Bal(l: Ledger, a: Account): int { Get(l.balances, a) }

  function Held(l: Ledger, a: Account): int { Get(l.holds, a) }

  // ---------------------------------------------------------------------------
  // Operations
  // ---------------------------------------------------------------------------

  function Move(b: map<Account, int>, debit: Account, credit: Account, amount: int): map<Account, int> {
    var b1 := b[debit := Get(b, debit) - amount];
    b1[credit := Get(b1, credit) + amount]
  }

  function ApplyTransfer(l: Ledger, t: Transfer): Ledger {
    l.(balances := Move(l.balances, t.debit, t.credit, t.amount))
  }

  function AddHold(l: Ledger, a: Account, amount: int): Ledger {
    l.(holds := l.holds[a := Held(l, a) + amount])
  }

  /** A new transfer is refused on an injected failure, a non-positive amount or missing funds.
      `failOnLeg == ""` stands for no injected failure. */
  predicate Refuses(l: Ledger, t: Transfer, failOnLeg: string) {
    || (failOnLeg != "" && t.leg == failOnLeg)
    || t.amount <= 0
    || (if t.pending then Bal(l, t.debit) - Held(l, t.debit) < t.amount else Bal(l, t.debit) < t.amount)
  }

  function Insert(l: Ledger, t: Transfer): Ledger {
    var l1 := l.(transfers := l.transfers[t.id := t]);
    if t.pending then AddHold(l1, t.debit, t.amount) else ApplyTransfer(l1, t)
  }

  /** The outcome of a create call; `created` lists the records it touched before it returned or raised. */
  datatype Created = Created(ok: bool, ledger: Ledger, created: seq<Transfer>)

  function CreateLoop(l: Ledger, ts: seq<Transfer>, created: seq<Transfer>, failOnLeg: string): Created
    decreases |ts|
  {
    if ts == [] then Created(true, l, created)
    else if ts[0].id in l.transfers then
      CreateLoop(l, ts[1..], created + [l.transfers[ts[0].id]], failOnLeg)
    else if Refuses(l, ts[0], failOnLeg) then Created(false, l, created)
    else CreateLoop(Insert(l, ts[0]), ts[1..], created + [ts[0]], failOnLeg)
  }

  /** The except-branch deletes every touched record whose state is still PENDING. */
  function Rollback(l: Ledger, created: seq<Transfer>): Ledger
    decreases |created|
  {
    if created == [] then l
    else Rollback(RollbackOne(l, created[0]), created[1..])
  }

  function RollbackOne(l: Ledger, t: Transfer): Ledger {
    if t.id in l.transfers && l.transfers[t.id].state == PENDING then
      AddHold(l.(transfers := l.transfers - {t.id}), t.debit, -t.amount)
    else l
  }

  function Create(l: Ledger, ts: seq<Transfer>, failOnLeg: string): Created {
    var r := CreateLoop(l, ts, [], failOnLeg);
    if r.ok then r else r.(ledger := Rollback(r.ledger, r.created))
  }

  predicate Postable(l: Ledger, ids: seq<TransferId>) {
    forall i :: 0 <= i < |ids| ==> ids[i] in l.transfers && l.transfers[ids[i]].state != VOIDED
  }

  function PostOne(l: Ledger, id: TransferId): Ledger
    requires id in l.transfers
  {
    var t := l.transfers[id];
    if t.state == PENDING then
      ApplyTransfer(AddHold(l.(transfers := l.transfers[id := t.(state := POSTED)]), t.debit, -t.amount), t)
    else l
  }

  function PostLoop(l: Ledger, ids: seq<TransferId>): Ledger
    requires forall i :: 0 <= i < |ids| ==> ids[i] in l.transfers
    decreases |ids|
  {
    if ids == [] then l else PostLoop(PostOne(l, ids[0]), ids[1..])
  }

  datatype Outcome = Outcome(ok: bool, ledger: Ledger)

  function Post(l: Ledger, ids: seq<TransferId>, failOnPost: bool): Outcome {
    if failOnPost || !Postable(l, ids) then Outcome(false, l) else Outcome(true, PostLoop(l, ids))
  }

  predicate Voidable(l: Ledger, ids: seq<TransferId>) {
    forall i :: 0 <= i < |ids| ==> ids[i] in l.transfers && l.transfers[ids[i]].state != POSTED
  }

  function VoidOne(l: Ledger, id: TransferId): Ledger
    requires id in l.transfers
  {
    var t := l.transfers[id];
    if t.state == PENDING then
      AddHold(l.(transfers := l.transfers[id := t.(state := VOIDED)]), t.debit, -t.amount)
    else l
  }

  function VoidLoop(l: Ledger, ids: seq<TransferId>): Ledger
    requires forall i :: 0 <= i < |ids| ==> ids[i] in l.transfers
    decreases |ids|
  {
    if ids == [] then l else VoidLoop(VoidOne(l, ids[0]), ids[1..])
  }

  function Void(l: Ledger, ids: seq<TransferId>): Outcome {
    if !Voidable(l, ids) then Outcome(false, l) else Outcome(true, VoidLoop(l, ids))
  }

  // ---------------------------------------------------------------------------
  // Chains
  // ---------------------------------------------------------------------------

  datatype Leg = Leg(name: string, dest: Account, amount: int)

  function HoldLeg(key: string, source: Account, leg: Leg, linked: bool): Transfer {
    Transfer(DeterministicTransferId(key, leg.name), source, leg.dest, leg.amount, true, linked, key, leg.name, PENDING)
  }

  /** The pending chain that reserves every leg out of `source`. */
  function HoldChain(key: string, source: Account, legs: seq<Leg>): seq<Transfer> {
    seq(|legs|, i requires 0 <= i < |legs| => HoldLeg(key, source, legs[i], i < |legs| - 1))
  }

  function ReversalLeg(key: string, source: Account, leg: Leg, linked: bool): Transfer {
    Transfer(DeterministicTransferId(key, leg.name + "|reversal"), leg.dest, source, leg.amount, false, linked,
             key + "|reversal", leg.name + "|reversal", PENDING)
  }

  /** The chain that pays every leg back, settling at once. */
  function ReversalChain(key: string, source: Account, legs: seq<Leg>): seq<Transfer> {
    seq(|legs|, i requires 0 <= i < |legs| => ReversalLeg(key, source, legs[i], i < |legs| - 1))
  }

  /** An empty chain or a non-positive leg cannot be reversed. */
  predicate Reversible(legs: seq<Leg>) {
    legs != [] && forall i :: 0 <= i < |legs| ==> legs[i].amount > 0
  }

  method BuildHoldChain(key: string, source: Account, legs: seq<Leg>) returns (transfers: seq<Transfer>)
    ensures transfers == HoldChain(key, source, legs)
  {
    transfers := [];
    for i := 0 to |legs|
      invariant transfers == HoldChain(key, source, legs)[..i]
    {
      transfers := transfers + [HoldLeg(key, source, legs[i], i < |legs| - 1)];
    }
  }

  method BuildReversalChain(key: string, source: Account, legs: seq<Leg>) returns (ok: bool, transfers: seq<Transfer>)
    ensures ok == Reversible(legs)
    ensures ok ==> transfers == ReversalChain(key, source, legs)
  {
    transfers := [];
    if legs == [] {
      return false, transfers;
    }
    for i := 0 to |legs|
      invariant forall j :: 0 <= j < i ==> legs[j].amount > 0
    {
      if legs[i].amount <= 0 {
        return false, transfers;
      }
    }
    for i := 0 to |legs|
      invariant transfers == ReversalChain(key, source, legs)[..i]
    {
      transfers := transfers + [ReversalLeg(key, source, legs[i], i < |legs| - 1)];
    }
    ok := true;
  }

  // ---------------------------------------------------------------------------
  // The client, updated in place
  // ---------------------------------------------------------------------------

  class InMemoryTBClient {
    var transfers: map<TransferId, Transfer>
    var balances: map<Account, int>
    var holds: map<Account, int>
    var failOnLeg: string
    var failOnPost: bool

    function Model(): Ledger
      reads this
    {
      Ledger(transfers, balances, holds)
    }

    constructor ()
      ensures Model() == Ledger(map[], map[], map[])
      ensures failOnLeg == "" && !failOnPost
    {
      transfers, balances, holds := map[], map[], map[];
      failOnLeg, failOnPost := "", false;
    }

    method Apply(t: Transfer)
      modifies this`balances
      ensures Model() == ApplyTransfer(old(Model()), t)
    {
      balances := balances[t.debit := Get(balances, t.debit) - t.amount];
      balances := balances[t.credit := Get(balances, t.credit) + t.amount];
    }

    /** The except-branch: every touched record that is still PENDING goes, and its hold with it. */
    method RollBack(created: seq<Transfer>)
      modifies this`transfers, this`holds
      ensures Model() == Rollback(old(Model()), created)
    {
      var k := 0;
      while k < |created|
        invariant 0 <= k <= |created|
        invariant Rollback(old(Model()), created) == Rollback(Model(), created[k..])
      {
        var t := created[k];
        assert created[k..][0] == t && created[k..][1..] == created[k + 1..];
        if t.id in transfers && transfers[t.id].state == PENDING {
          transfers := transfers - {t.id};
          holds := holds[t.debit := Get(holds, t.debit) - t.amount];
        }
        k := k + 1;
      }
    }

    method CreateTransfers(ts: seq<Transfer>) returns (ok: bool, created: seq<Transfer>)
      modifies this`transfers, this`balances, this`holds
      ensures Created(ok, Model(), created) == Create(old(Model()), ts, failOnLeg)
    {
      created := [];
      ok := true;
      var i := 0;
      while ok && i < |ts|
        invariant 0 <= i <= |ts|
        invariant ok ==> CreateLoop(old(Model()), ts, [], failOnLeg) == CreateLoop(Model(), ts[i..], created, failOnLeg)
        invariant !ok ==> CreateLoop(old(Model()), ts, [], failOnLeg) == Created(false, Model(), created)
        decreases |ts| - i, ok
      {
        var t := ts[i];
        assert ts[i..][0] == t && ts[i..][1..] == ts[i + 1..];
        if t.id in transfers {
          created := created + [transfers[t.id]];
          i := i + 1;
        } else if failOnLeg != "" && t.leg == failOnLeg {
          ok := false;
        } else if t.amount <= 0 {
          ok := false;
        } else if t.pending && Get(balances, t.debit) - Get(holds, t.debit) < t.amount {
          ok := false;
        } else if !t.pending && Get(balances, t.debit) < t.amount {
          ok := false;
        } else {
          transfers := transfers[t.id := t];
          created := created + [t];
          if t.pending {
            holds := holds[t.debit := Get(holds, t.debit) + t.amount];
          } else {
            Apply(t);
          }
          i := i + 1;
        }
      }
      if !ok {
        RollBack(created);
      }
    }

    method PostPendingTransfers(ids: seq<TransferId>) returns (ok: bool)
      modifies this`transfers, this`balances, this`holds
      ensures Outcome(ok, Model()) == Post(old(Model()), ids, failOnPost)
    {
      if failOnPost {
        return false;
      }
      var i := 0;
      while i < |ids|
        invariant 0 <= i <= |ids|
        invariant forall j :: 0 <= j < i ==> ids[j] in transfers && transfers[ids[j]].state != VOIDED
      {
        if ids[i] !in transfers {
          return false;
        }
        if transfers[ids[i]].state == VOIDED {
          return false;
        }
        i := i + 1;
      }
      assert Postable(old(Model()), ids);
      hide Postable;
      i := 0;
      while i < |ids|
        invariant 0 <= i <= |ids|
        invariant transfers.Keys == old(transfers).Keys
        invariant PostLoop(old(Model()), ids) == PostLoop(Model(), ids[i..])
      {
        assert ids[i..][0] == ids[i] && ids[i..][1..] == ids[i + 1..];
        var t := transfers[ids[i]];
        if t.state == PENDING {
          transfers := transfers[ids[i] := t.(state := POSTED)];
          holds := holds[t.debit := Get(holds, t.debit) - t.amount];
          Apply(t);
        }
        i := i + 1;
      }
      return true;
    }

    method VoidPendingTransfers(ids: seq<TransferId>) returns (ok: bool)
      modifies this`transfers, this`holds
      ensures Outcome(ok, Model()) == Void(old(Model()), ids)
    {
      var i := 0;
      while i < |ids|
        invariant 0 <= i <= |ids|
        invariant forall j :: 0 <= j < i ==> ids[j] in transfers && transfers[ids[j]].state != POSTED
      {
        if ids[i] !in transfers {
          return false;
        }
        if transfers[ids[i]].state == POSTED {
          return false;
        }
        i := i + 1;
      }
      i := 0;
      while i < |ids|
        invariant 0 <= i <= |ids|
        invariant transfers.Keys == old(transfers).Keys
        invariant VoidLoop(old(Model()), ids) == VoidLoop(Model(), ids[i..])
      {
        assert ids[i..][0] == ids[i] && ids[i..][1..] == ids[i + 1..];
        var t := transfers[ids[i]];
        if t.state == PENDING {
          transfers := transfers[ids[i] := t.(state := VOIDED)];
          holds := holds[t.debit := Get(holds, t.debit) - t.amount];
        }
        i := i + 1;
      }
      return true;
    }
  }
}
