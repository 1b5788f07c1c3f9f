/** A record the gateway cannot accept, and everything behind it. The gateway answers each record of a
    batch on its own, but it accepts sequences only one after the other, so a record that stays
    unaccepted holds back every later one of its device. */
module EdgePoison {
  import opened Sequences
  import opened EdgeSync
  import opened EdgeProtocol
  import opened EdgeEngine
  import opened EdgeDrain

  // ---------------------------------------------------------------------------
  // The gateway, under any stream of records
  // ---------------------------------------------------------------------------

  /** Of every device exactly the sequences 1 to its high-water mark are accepted. */
  ghost predicate Contiguous(g: Gateway) {
    && (forall d :: HighWater(g, d) >= 0)
    && (forall d, n :: (d, n) in g.accepted <==> 1 <= n <= HighWater(g, d))
  }

  lemma {:induction false} HandleRecordKeepsContiguous(g: Gateway, r: SignedRecord)
    requires Contiguous(g)
    ensures Contiguous(HandleRecord(g, r).gateway)
  {
    forall d ensures HighWater(HandleRecord(g, r).gateway, d) >= 0 {
      assert HighWater(g, d) >= 0;
    }
  }

  lemma {:induction false} HandleKeepsContiguous(g: Gateway, records: seq<SignedRecord>)
    requires Contiguous(g)
    ensures Contiguous(HandleAll(g, records).gateway)
    decreases |records|
  {
    if records != [] {
      HandleRecordKeepsContiguous(g, records[0]);
      hide Contiguous, HandleRecord;
      HandleKeepsContiguous(HandleRecord(g, records[0]).gateway, records[1..]);
    }
  }

  /** After any stream of records whatsoever, what becomes of the next one: it is rejected if and only if
      its signature fails, its sequence is not positive, or the sequence before it is not accepted. */
  lemma {:induction false} RejectedIff(stream: seq<SignedRecord>, r: SignedRecord)
    ensures var g := HandleAll(Gateway(map[], map[]), stream).gateway;
      HandleRecord(g, r).ack.status == Rejected <==>
        !Verifies(r) || r.sequence < 1 || (r.sequence > 1 && (r.device, r.sequence - 1) !in g.accepted)
  {
    HandleKeepsContiguous(Gateway(map[], map[]), stream);
  }

  /** The status of record `i` of a stream. */
  function StatusAt(g: Gateway, records: seq<SignedRecord>, i: nat): Status
    requires i < |records|
  {
    HandleRecord(HandleAll(g, records[..i]).gateway, records[i]).ack.status
  }

  lemma {:induction false} OneAckEach(g: Gateway, records: seq<SignedRecord>)
    ensures |HandleAll(g, records).acks| == |records|
    decreases |records|
  {
    hide HandleRecord;
    if records != [] { OneAckEach(HandleRecord(g, records[0]).gateway, records[1..]); }
  }

  lemma {:induction false} AckIsStatus(g: Gateway, records: seq<SignedRecord>, i: nat)
    requires i < |records|
    ensures |HandleAll(g, records).acks| == |records| && HandleAll(g, records).acks[i].status == StatusAt(g, records, i)
    decreases |records|
  {
    hide HandleRecord;
    OneAckEach(g, records);
    if i == 0 {
      assert records[..0] == [];
    } else {
      var g1 := HandleRecord(g, records[0]).gateway;
      AckIsStatus(g1, records[1..], i - 1);
      assert records[..i][0] == records[0] && records[..i][1..] == records[1..][..i - 1];
    }
  }

  /** Accepted records stay accepted. */
  lemma {:induction false} AcceptedGrows(g: Gateway, records: seq<SignedRecord>)
    ensures forall k :: k in g.accepted ==> k in HandleAll(g, records).gateway.accepted
    decreases |records|
  {
    if records != [] { AcceptedGrows(HandleRecord(g, records[0]).gateway, records[1..]); }
  }

  lemma {:induction false} HandleSplit(g: Gateway, a: seq<SignedRecord>, b: seq<SignedRecord>)
    ensures HandleAll(g, a + b).gateway == HandleAll(HandleAll(g, a).gateway, b).gateway
    decreases |a|
  {
    hide HandleRecord;
    if a == [] {
      assert a + b == b;
    } else {
      assert (a + b)[0] == a[0] && (a + b)[1..] == a[1..] + b;
      HandleSplit(HandleRecord(g, a[0]).gateway, a[1..], b);
    }
  }

  lemma {:induction false} UnacceptedBefore(g: Gateway, records: seq<SignedRecord>, i: nat, k: (string, int))
    requires i <= |records| && k !in HandleAll(g, records).gateway.accepted
    ensures k !in HandleAll(g, records[..i]).gateway.accepted
  {
    assert records[..i] + records[i..] == records;
    HandleSplit(g, records[..i], records[i..]);
    AcceptedGrows(HandleAll(g, records[..i]).gateway, records[i..]);
  }

  /** What each answer means: accepted, the record is new and is taken in; duplicate, it is properly signed and its
      sequence was taken in before; anything but accepted, the gateway stays as it was. */
  lemma {:induction false} AnswerMeans(stream: seq<SignedRecord>, r: SignedRecord)
    ensures var g := HandleAll(Gateway(map[], map[]), stream).gateway;
      var h, key := HandleRecord(g, r), (r.device, r.sequence);
      && h.ack.device == r.device && h.ack.sequence == r.sequence
      && (h.ack.status == Accepted <==> key !in g.accepted && key in h.gateway.accepted)
      && (h.ack.status == Accepted ==> h.gateway.accepted == g.accepted[key := r] && HighWater(h.gateway, r.device) == r.sequence)
      && (h.ack.status == Duplicate <==> Verifies(r) && key in g.accepted)
      && (h.ack.status != Accepted ==> h.gateway == g)
  {
  }

  /** Whatever is sent, however often, each sequence of each device is answered with accepted at most once. */
  lemma {:induction false} AcceptedOnce(stream: seq<SignedRecord>, i: nat, k: nat)
    requires i < k < |stream| && stream[i].device == stream[k].device && stream[i].sequence == stream[k].sequence
    ensures var acks := HandleAll(Gateway(map[], map[]), stream).acks;
      |acks| == |stream| && !(acks[i].status == Accepted && acks[k].status == Accepted)
  {
    var g := Gateway(map[], map[]);
    AckIsStatus(g, stream, i);
    AckIsStatus(g, stream, k);
    var before, key := stream[..i], (stream[i].device, stream[i].sequence);
    AnswerMeans(before, stream[i]);
    AnswerMeans(stream[..k], stream[k]);
    HandleSplit(g, before, [stream[i]]);
    assert before + [stream[i]] == stream[..i + 1];
    OneHandled(HandleAll(g, before).gateway, stream[i]);
    assert stream[..i + 1] + stream[i + 1..k] == stream[..k];
    HandleSplit(g, stream[..i + 1], stream[i + 1..k]);
    AcceptedGrows(HandleAll(g, stream[..i + 1]).gateway, stream[i + 1..k]);
    hide HandleAll, HandleRecord;
  }

  lemma {:induction false} OneHandled(g: Gateway, r: SignedRecord)
    ensures HandleAll(g, [r]).gateway == HandleRecord(g, r).gateway
  {
    assert [r][1..] == [];
  }

  /** One poison record blocks the queue behind it: while sequence `n` of a device stays unaccepted, every
      record of a later sequence of that device is rejected, each time it is sent, and none is accepted. */
  lemma {:induction false} UnacceptedBlocks(g: Gateway, d: string, n: int, records: seq<SignedRecord>)
    requires Contiguous(g) && n >= 1 && (d, n) !in HandleAll(g, records).gateway.accepted
    ensures forall q :: q > n ==> (d, q) !in HandleAll(g, records).gateway.accepted
    ensures |HandleAll(g, records).acks| == |records|
    ensures forall i :: 0 <= i < |records| && records[i].device == d && records[i].sequence > n ==>
      HandleAll(g, records).acks[i].status == Rejected
  {
    HandleKeepsContiguous(g, records);
    OneAckEach(g, records);
    forall i | 0 <= i < |records| && records[i].device == d && records[i].sequence > n
      ensures HandleAll(g, records).acks[i].status == Rejected
    {
      UnacceptedBefore(g, records, i, (d, n));
      HandleKeepsContiguous(g, records[..i]);
      AckIsStatus(g, records, i);
      hide HandleAll;
    }
  }

  /** `at` lists increasing positions at which the stream has the records `n + 1`, `n + 2`, ... of `d`,
      each properly signed. */
  ghost predicate InOrder(records: seq<SignedRecord>, d: string, n: int, at: seq<nat>) {
    && (forall j :: 0 <= j < |at| ==> at[j] < |records| && IsNext(records[at[j]], d, n + j))
    && (forall j, k :: 0 <= j < k < |at| ==> at[j] < at[k])
  }

  predicate IsNext(r: SignedRecord, d: string, n: int) {
    r.device == d && r.sequence == n + 1 && Verifies(r)
  }

  lemma {:induction false} HighWaterStep(g: Gateway, r: SignedRecord, d: string)
    requires HighWater(g, d) >= 0 && forall n :: (d, n) in g.accepted ==> 1 <= n <= HighWater(g, d)
    ensures HighWater(HandleRecord(g, r).gateway, d) == HighWater(g, d) + (if IsNext(r, d, HighWater(g, d)) then 1 else 0)
  {
  }

  /** Positions in a stream without its first record. */
  function Shift(at: seq<nat>, offset: int): seq<nat>
    requires forall j :: 0 <= j < |at| ==> at[j] + offset >= 0
  {
    seq(|at|, j requires 0 <= j < |at| => at[j] + offset)
  }

  /** What comes in order is accepted, whatever is sent in between. */
  lemma {:induction false} InOrderIsAccepted(g: Gateway, d: string, n: int, records: seq<SignedRecord>, at: seq<nat>)
    requires Contiguous(g) && HighWater(g, d) >= n && InOrder(records, d, n, at)
    ensures HighWater(HandleAll(g, records).gateway, d) >= n + |at|
    decreases |records|
  {
    if records != [] {
      var g1 := HandleRecord(g, records[0]).gateway;
      HandleRecordKeepsContiguous(g, records[0]);
      HighWaterStep(g, records[0], d);
      hide Contiguous, HandleRecord, HighWater;
      TailAt(records);
      if at != [] && at[0] == 0 {
        TailAt(at);
        InOrderIsAccepted(g1, d, n + 1, records[1..], Shift(at[1..], -1));
      } else {
        assert forall j :: 0 <= j < |at| ==> at[j] >= 1;
        InOrderIsAccepted(g1, d, n, records[1..], Shift(at, -1));
      }
    }
  }

  lemma {:induction false} LaterInOrder(records: seq<SignedRecord>, d: string, n: int, later: seq<nat>)
    requires records != []
    ensures InOrder(records[1..], d, n, later) ==> InOrder(records, d, n, Shift(later, 1))
    ensures InOrder(records[1..], d, n + 1, later) && IsNext(records[0], d, n) ==> InOrder(records, d, n, [0] + Shift(later, 1))
  {
    hide IsNext;
    TailAt(records);
    var shifted := Shift(later, 1);
    var all := [0] + shifted;
    assert forall j :: 0 < j < |all| ==> all[j] == shifted[j - 1];
  }

  /** And nothing else is: accepted sequences came in order. */
  lemma {:induction false} AcceptedCameInOrder(g: Gateway, d: string, q: int, records: seq<SignedRecord>) returns (at: seq<nat>)
    requires Contiguous(g) && HighWater(g, d) <= q <= HighWater(HandleAll(g, records).gateway, d)
    ensures |at| == q - HighWater(g, d) && InOrder(records, d, HighWater(g, d), at)
    decreases |records|
  {
    at := [];
    assert InOrder(records, d, HighWater(g, d), []);
    if records != [] && q > HighWater(g, d) {
      var g1 := HandleRecord(g, records[0]).gateway;
      HandleRecordKeepsContiguous(g, records[0]);
      HighWaterStep(g, records[0], d);
      hide Contiguous, HandleRecord, HighWater, InOrder, IsNext;
      var later := AcceptedCameInOrder(g1, d, q, records[1..]);
      LaterInOrder(records, d, HighWater(g, d), later);
      at := if IsNext(records[0], d, HighWater(g, d)) then [0] + Shift(later, 1) else Shift(later, 1);
    }
  }

  /** Exactly what gets through: after any stream a new sequence `q` of a device is accepted if and only if
      the stream contains, in this order, properly signed records of every sequence from the device's
      high-water mark up to `q`. */
  lemma {:induction false} AcceptedIffInOrder(g: Gateway, d: string, q: int, records: seq<SignedRecord>)
    requires Contiguous(g) && q > HighWater(g, d)
    ensures (d, q) in HandleAll(g, records).gateway.accepted <==>
      exists at: seq<nat> :: |at| == q - HighWater(g, d) && InOrder(records, d, HighWater(g, d), at)
  {
    HandleKeepsContiguous(g, records);
    if (d, q) in HandleAll(g, records).gateway.accepted {
      var at := AcceptedCameInOrder(g, d, q, records);
    }
    if at: seq<nat> :| |at| == q - HighWater(g, d) && InOrder(records, d, HighWater(g, d), at) {
      InOrderIsAccepted(g, d, HighWater(g, d), records, at);
    }
  }

  // ---------------------------------------------------------------------------
  // The device behind it
  // ---------------------------------------------------------------------------

  /** The first pending row, number `m + 1`, does not verify; the gateway has nothing from it on. */
  ghost predicate Blocked(rows: seq<Row>, m: nat, g: Gateway, d: string) {
    && Sequenced(rows) && SyncedUpTo(rows, m)
    && (forall i :: 0 <= i < |rows| ==> rows[i].record.device == d)
    && m < |rows| && !Verifies(rows[m].record)
    && HighWater(g, d) <= m && forall n :: n > m ==> (d, n) !in g.accepted
  }

  ghost predicate AllRejected(acks: seq<Ack>) {
    forall i :: 0 <= i < |acks| ==> acks[i].status == Rejected
  }

  /** Records from the bad one on: all rejected, the gateway as before. */
  lemma {:induction false} BatchRejected(g: Gateway, d: string, m: nat, records: seq<SignedRecord>, from: nat)
    requires HighWater(g, d) <= m <= from && forall n :: n > m ==> (d, n) !in g.accepted
    requires forall i :: 0 <= i < |records| ==> records[i].device == d && records[i].sequence == from + i + 1
    requires from == m && records != [] ==> !Verifies(records[0])
    ensures HandleAll(g, records).gateway == g && AllRejected(HandleAll(g, records).acks)
    decreases |records|
  {
    if records != [] {
      TailAt(records);
      assert HandleRecord(g, records[0]) == Handled(g, Ack(d, from + 1, Rejected));
      hide HandleRecord;
      BatchRejected(g, d, m, records[1..], from + 1);
    }
  }

  lemma {:induction false} NothingAcked(acks: seq<Ack>)
    requires AllRejected(acks)
    ensures AckedSequences(acks) == []
  {
    if acks != [] {
      TailAt(acks);
      NothingAcked(acks[1..]);
    }
  }

  lemma {:induction false} PushRejected(c: Config, g: Gateway, records: seq<SignedRecord>, attempts: nat, retries: nat)
    requires HandleAll(g, records).gateway == g && AllRejected(HandleAll(g, records).acks)
    ensures Push(c, g, records, attempts, retries).gateway == g && AllRejected(Push(c, g, records, attempts, retries).acks)
    decreases retries
  {
    hide HandleAll;
    if c.net(attempts) != Delivered && retries > 0 { PushRejected(c, g, records, attempts + 1, retries - 1); }
  }

  /** A sync at a blocked device changes neither outbox, gateway nor bus, whatever network and bus do:
      if it returns, it returns zero. */
  lemma {:induction false} BlockedSyncDoesNothing(c: Config, w: World, m: nat)
    requires Blocked(w.rows, m, w.gateway, c.device)
    ensures var r := SyncOnce(c, w);
      && (r.outcome == Acked(0) || r.outcome == Unreachable)
      && r.world.rows == w.rows && r.world.gateway == w.gateway && r.world.log == w.log
  {
    BatchIs(w.rows, m, c.batchSize);
    var records := Pending(w.rows, c.batchSize);
    assert forall i :: 0 <= i < |records| ==> records[i].device == c.device;
    hide Pending, Sequenced, SyncedUpTo;
    BatchRejected(w.gateway, c.device, m, records, m);
    PushRejected(c, w.gateway, records, w.attempts, c.maxRetries);
    var p := Push(c, w.gateway, records, w.attempts, c.maxRetries);
    NothingAcked(p.acks);
    hide Push, HandleAll, AllRejected;
  }

  /** What can happen around a blocked device: more records, syncs and drains of its own, and whatever
      other devices send. */
  datatype Move =
    | Queue(capacity: nat, key: PublicKey, payload: Payload)
    | Once(config: Config)
    | Drain(config: Config, batches: nat)
    | Elsewhere(records: seq<SignedRecord>)

  predicate MoveOf(d: string, a: Move) {
    match a
    case Queue(_, _, _) => true
    case Once(c) => c.device == d
    case Drain(c, _) => c.device == d
    case Elsewhere(records) => forall i :: 0 <= i < |records| ==> records[i].device != d
  }

  function Make(d: string, w: World, a: Move): World {
    match a
    case Queue(capacity, key, payload) =>
      var q := Enqueue(w.rows, d, capacity, key, payload);
      if q.Full? then w else w.(rows := q.rows)
    case Once(c) => SyncOnce(c, w).world
    case Drain(c, n) => SyncAll(c, w, n, 0).world
    case Elsewhere(records) => w.(gateway := HandleAll(w.gateway, records).gateway)
  }

  function MakeAll(d: string, w: World, moves: seq<Move>): World
    decreases |moves|
  {
    if moves == [] then w else MakeAll(d, Make(d, w, moves[0]), moves[1..])
  }

  lemma {:induction false} OthersLeave(g: Gateway, d: string, records: seq<SignedRecord>)
    requires forall i :: 0 <= i < |records| ==> records[i].device != d
    ensures var g' := HandleAll(g, records).gateway;
      HighWater(g', d) == HighWater(g, d) && forall n :: (d, n) in g'.accepted <==> (d, n) in g.accepted
    decreases |records|
  {
    if records != [] {
      TailAt(records);
      HandleRecordLeavesOthers(g, records[0]);
      hide HandleRecord, HighWater;
      OthersLeave(HandleRecord(g, records[0]).gateway, d, records[1..]);
    }
  }

  /** A blocked device stays blocked, at the same record. */
  lemma {:induction false} MoveKeepsBlocked(d: string, w: World, m: nat, a: Move)
    requires Blocked(w.rows, m, w.gateway, d) && MoveOf(d, a)
    ensures Blocked(Make(d, w, a).rows, m, Make(d, w, a).gateway, d) && Make(d, w, a).log == w.log
    ensures |Make(d, w, a).rows| >= |w.rows|
  {
    match a
    case Queue(capacity, key, payload) =>
      MaxOfNumbered(w.rows, 0);
      var q := Enqueue(w.rows, d, capacity, key, payload);
      hide PendingCount, MaxSequence;
      if q.Queued? {
        assert forall i :: 0 <= i < |w.rows| ==> q.rows[i] == w.rows[i];
      }
    case Once(c) =>
      BlockedSyncDoesNothing(c, w, m);
      hide SyncOnce;
    case Drain(c, n) =>
      BlockedSyncDoesNothing(c, w, m);
      hide SyncOnce;
    case Elsewhere(records) =>
      OthersLeave(w.gateway, d, records);
      hide HandleAll, HighWater, Sequenced, SyncedUpTo;
  }

  /** For ever: while its first pending record does not verify, no row from it on is ever marked and
      none is ever accepted, however often the device syncs and whatever else it enqueues. */
  lemma {:induction false} PoisonBlocksForever(d: string, w: World, m: nat, moves: seq<Move>)
    requires Blocked(w.rows, m, w.gateway, d) && forall i :: 0 <= i < |moves| ==> MoveOf(d, moves[i])
    ensures var w' := MakeAll(d, w, moves);
      && |w'.rows| >= |w.rows| && (forall i :: m <= i < |w'.rows| ==> !w'.rows[i].synced)
      && (forall n :: n > m ==> (d, n) !in w'.gateway.accepted)
      && w'.log == w.log
    decreases |moves|
  {
    hide Make;
    if moves != [] {
      TailAt(moves);
      MoveKeepsBlocked(d, w, m, moves[0]);
      PoisonBlocksForever(d, Make(d, w, moves[0]), m, moves[1..]);
    }
  }

  const TICKET := Payload(RevenueTicket, "ticket")
  const FORGED := SignedRecord("pos-1", 1, TICKET, Unsigned, "key-1")
  const GENUINE := SignedRecord("pos-1", 2, TICKET, Signed("key-1", "pos-1", 2, TICKET), "key-1")

  /** A first record whose signature does not verify, and a good one behind it: with every message
      delivered, a sync returns zero, the good record stays pending and the gateway has neither. */
  lemma {:induction false} ForgedRecordBlocks(c: Config, m: nat)
    requires c.device == "pos-1" && c.batchSize >= 2 && forall k: nat :: c.net(k) == Delivered
    ensures var w := World([Row(FORGED, false), Row(GENUINE, false)], Gateway(map[], map[]), [], 0, 0);
      && Verifies(GENUINE)
      && SyncOnce(c, w).outcome == Acked(0)
      && SyncAll(c, w, m, 0).world.rows == w.rows && SyncAll(c, w, m, 0).world.gateway == Gateway(map[], map[])
  {
    var w := World([Row(FORGED, false), Row(GENUINE, false)], Gateway(map[], map[]), [], 0, 0);
    assert Blocked(w.rows, 0, w.gateway, c.device);
    BlockedSyncDoesNothing(c, w, 0);
    BatchIs(w.rows, 0, c.batchSize);
    assert SyncOnce(c, w).outcome != Unreachable;
    hide SyncOnce;
  }
}
