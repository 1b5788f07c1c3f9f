/** Safety of the sync protocol between any number of devices and the gateway, over a network that
    loses, repeats and delays batches and replies, with clients that may restart at any time. Both
    pools of messages only grow: a message that is never delivered is lost, one delivered twice is
    repeated. A restart changes nothing here, because everything a client keeps is in its outbox. */
module EdgeProtocol {
  import opened Sequences
  import opened EdgeSync

  datatype Batch = Batch(device: string, records: seq<SignedRecord>)

  datatype Reply = Reply(device: string, acks: seq<Ack>)

  datatype System = System(devices: map<string, seq<Row>>, gateway: Gateway, requests: set<Batch>, replies: set<Reply>)

  function Rows(s: System, d: string): seq<Row> {
    if d in s.devices then s.devices[d] else []
  }

  function AckedSequences(acks: seq<Ack>): seq<int> {
    if acks == [] then []
    else if acks[0].status == Rejected then AckedSequences(acks[1..])
    else [acks[0].sequence] + AckedSequences(acks[1..])
  }

  /** The first `n` of the acks, or all of them. */
  function Firsts(acks: seq<Ack>, n: nat): seq<Ack> {
    if n < |acks| then acks[..n] else acks
  }

  /** Marking runs one statement a sequence, each committed on its own, so a client that dies has marked
      some first part of a reply. */
  datatype Event =
    | EnqueueEvent(device: string, capacity: nat, key: PublicKey, payload: Payload)
    | SendEvent(device: string, limit: nat)
    | DeliverEvent(batch: Batch)
    | MarkEvent(reply: Reply, upTo: nat)

  predicate Enabled(s: System, e: Event) {
    match e
    case EnqueueEvent(_, _, _, _) => true
    case SendEvent(d, limit) => Pending(Rows(s, d), limit) != []
    case DeliverEvent(b) => b in s.requests
    case MarkEvent(r, _) => r in s.replies
  }

  function Step(s: System, e: Event): System {
    match e
    case EnqueueEvent(d, capacity, key, payload) =>
      var q := Enqueue(Rows(s, d), d, capacity, key, payload);
      if q.Full? then s else s.(devices := s.devices[d := q.rows])
    case SendEvent(d, limit) => s.(requests := s.requests + {Batch(d, Pending(Rows(s, d), limit))})
    case DeliverEvent(b) =>
      var h := HandleAll(s.gateway, b.records);
      s.(gateway := h.gateway, replies := s.replies + {Reply(b.device, h.acks)})
    case MarkEvent(r, n) =>
      s.(devices := s.devices[r.device := MarkSynced(Rows(s, r.device), AckedSequences(Firsts(r.acks, n)))])
  }

  const START := System(map[], Gateway(map[], map[]), {}, {})

  ghost predicate Runs(s: System, es: seq<Event>)
    decreases |es|
  {
    es == [] || (Enabled(s, es[0]) && Runs(Step(s, es[0]), es[1..]))
  }

  function StepAll(s: System, es: seq<Event>): System
    decreases |es|
  {
    if es == [] then s else StepAll(Step(s, es[0]), es[1..])
  }

  // ---------------------------------------------------------------------------
  // Invariant
  // ---------------------------------------------------------------------------

  /** Row `i` carries sequence `i + 1` of this device, properly signed. */
  ghost predicate Numbered(rows: seq<Row>, d: string) {
    forall i :: 0 <= i < |rows| ==> rows[i].record.sequence == i + 1 && rows[i].record.device == d && Verifies(rows[i].record)
  }

  /** Row `i` carries sequence `i + 1`. */
  ghost predicate Sequenced(rows: seq<Row>) {
    forall i :: 0 <= i < |rows| ==> rows[i].record.sequence == i + 1
  }

  /** The first `m` rows are synced, the others pending. */
  ghost predicate SyncedUpTo(rows: seq<Row>, m: nat) {
    m <= |rows| && forall i :: 0 <= i < |rows| ==> (rows[i].synced <==> i < m)
  }

  /** The gateway holds exactly sequences 1 to the high-water mark of `d`, with the outbox's content. */
  ghost predicate GatewayMirrors(g: Gateway, rows: seq<Row>, d: string) {
    && 0 <= HighWater(g, d) <= |rows|
    && (forall n :: (d, n) in g.accepted <==> 1 <= n <= HighWater(g, d))
    && (forall n :: 1 <= n <= HighWater(g, d) ==> g.accepted[(d, n)] == rows[n - 1].record)
  }

  ghost predicate Honest(rows: seq<Row>, m: nat, g: Gateway, d: string) {
    Numbered(rows, d) && SyncedUpTo(rows, m) && GatewayMirrors(g, rows, d) && m <= HighWater(g, d)
  }

  /** A batch lists consecutive outbox records, starting no later than the first pending one. */
  ghost predicate Consecutive(records: seq<SignedRecord>, rows: seq<Row>, from: nat) {
    from + |records| <= |rows| && forall i :: 0 <= i < |records| ==> records[i] == rows[from + i].record
  }

  ghost predicate RequestFits(b: Batch, rows: seq<Row>, m: nat) {
    exists from: nat :: from <= m && Consecutive(b.records, rows, from)
  }

  /** A reply acknowledges consecutive sequences the gateway has, none of them rejected. */
  ghost predicate AcksFrom(acks: seq<Ack>, from: nat, d: string) {
    forall i :: 0 <= i < |acks| ==> acks[i].sequence == from + i + 1 && acks[i].device == d && acks[i].status != Rejected
  }

  ghost predicate ReplyFits(r: Reply, m: nat, hw: int) {
    exists from: nat :: from <= m && from + |r.acks| <= hw && AcksFrom(r.acks, from, r.device)
  }

  ghost predicate DeviceFits(s: System, d: string, m: nat) {
    && Honest(Rows(s, d), m, s.gateway, d)
    && (forall b :: b in s.requests && b.device == d ==> RequestFits(b, Rows(s, d), m))
    && (forall r :: r in s.replies && r.device == d ==> ReplyFits(r, m, HighWater(s.gateway, d)))
  }

  ghost predicate DeviceOk(s: System, d: string) {
    exists m :: DeviceFits(s, d, m)
  }

  ghost predicate Inv(s: System) {
    forall d :: DeviceOk(s, d)
  }

  // ---------------------------------------------------------------------------
  // Outbox facts
  // ---------------------------------------------------------------------------

  lemma {:induction false} MaxOfNumbered(rows: seq<Row>, from: nat)
    requires forall i :: 0 <= i < |rows| ==> rows[i].record.sequence == from + i + 1
    ensures rows != [] ==> MaxSequence(rows) == from + |rows|
    ensures rows == [] ==> MaxSequence(rows) == 0
  {
    if rows != [] {
      TailAt(rows);
      MaxOfNumbered(rows[1..], from + 1);
    }
  }

  lemma {:induction false} PendingAtNumbered(rows: seq<Row>, from: nat, s: int)
    requires forall i :: 0 <= i < |rows| ==> rows[i].record.sequence == from + i + 1
    ensures PendingAt(rows, s) ==
      if 0 <= s - from - 1 < |rows| && !rows[s - from - 1].synced then [rows[s - from - 1].record] else []
  {
    if rows != [] {
      TailAt(rows);
      PendingAtNumbered(rows[1..], from + 1, s);
    }
  }

  function Records(rows: seq<Row>): seq<SignedRecord> {
    seq(|rows|, i requires 0 <= i < |rows| => rows[i].record)
  }

  function Min(a: int, b: int): int { if a < b then a else b }

  /** At most `limit` of `all`, from `at` on. */
  function Window<T>(all: seq<T>, at: int, limit: nat): seq<T>
    requires 0 <= at <= |all|
  {
    all[at..Min(at + limit, |all|)]
  }

  lemma {:induction false} WindowStep<T>(all: seq<T>, at: nat, limit: nat)
    requires at <= |all|
    ensures limit == 0 || at == |all| ==> Window(all, at, limit) == []
    ensures limit > 0 && at < |all| ==> Window(all, at, limit) == [all[at]] + Window(all, at + 1, limit - 1)
  {
  }

  /** The pending query returns the records right after the synced ones. */
  lemma {:induction false} PendingFromNumbered(rows: seq<Row>, m: nat, s: nat, limit: nat)
    requires Sequenced(rows) && SyncedUpTo(rows, m) && 1 <= s <= |rows| + 1
    ensures m <= |rows| == |Records(rows)|
    ensures PendingFrom(rows, s, limit) == Window(Records(rows), if s - 1 < m then m else s - 1, limit)
    decreases |rows| + 1 - s
  {
    PendingAtIs(rows, m, s);
    var at, all := if s - 1 < m then m else s - 1, Records(rows);
    WindowStep(all, at, limit);
    PendingFromEnds(rows, s, limit);
    hide PendingAt, MaxSequence, PendingFrom, Sequenced, SyncedUpTo, Window, Records;
    if limit > 0 && s <= |rows| {
      PendingFromStep(rows, s, limit);
      PendingFromNumbered(rows, m, s + 1, if s - 1 < m then limit else limit - 1);
    }
  }

  lemma {:induction false} PendingFromEnds(rows: seq<Row>, s: int, limit: nat)
    ensures limit == 0 || s > MaxSequence(rows) ==> PendingFrom(rows, s, limit) == []
  {
  }

  lemma {:induction false} PendingAtIs(rows: seq<Row>, m: nat, s: nat)
    requires Sequenced(rows) && SyncedUpTo(rows, m) && 1 <= s <= |rows| + 1
    ensures MaxSequence(rows) == |rows| && m <= |rows| && |Records(rows)| == |rows|
    ensures s <= |rows| ==> PendingAt(rows, s) == if s - 1 < m then [] else [Records(rows)[s - 1]]
  {
    MaxOfNumbered(rows, 0);
    PendingAtNumbered(rows, 0, s);
  }

  lemma {:induction false} PendingFromStep(rows: seq<Row>, s: int, limit: nat)
    requires limit > 0 && s <= MaxSequence(rows)
    ensures PendingAt(rows, s) == [] ==> PendingFrom(rows, s, limit) == PendingFrom(rows, s + 1, limit)
    ensures PendingAt(rows, s) != [] ==> PendingFrom(rows, s, limit) == PendingAt(rows, s) + PendingFrom(rows, s + 1, limit - 1)
  {
    hide PendingAt, MaxSequence;
    assert [] + PendingFrom(rows, s + 1, limit) == PendingFrom(rows, s + 1, limit);
  }

  lemma {:induction false} PendingNumbered(rows: seq<Row>, m: nat, limit: nat)
    requires Sequenced(rows) && SyncedUpTo(rows, m)
    ensures Pending(rows, limit) == Records(rows)[m..Min(m + limit, |rows|)]
  {
    PendingFromNumbered(rows, m, 1, limit);
  }

  /** Marking consecutive sequences that start no later than the first pending row. */
  lemma {:induction false} MarkConsecutive(rows: seq<Row>, d: string, m: nat, acked: seq<int>, from: nat)
    requires Numbered(rows, d) && SyncedUpTo(rows, m)
    requires from <= m && from + |acked| <= |rows| && forall i :: 0 <= i < |acked| ==> acked[i] == from + i + 1
    ensures var rows' := MarkSynced(rows, acked);
      && Numbered(rows', d) && Records(rows') == Records(rows)
      && SyncedUpTo(rows', if from + |acked| > m then from + |acked| else m)
    decreases |acked|
  {
    if acked != [] {
      TailAt(acked);
      var rows1 := MarkOne(rows, acked[0]);
      var m1 := if from == m then m + 1 else m;
      assert Records(rows1) == Records(rows);
      MarkConsecutive(rows1, d, m1, acked[1..], from + 1);
    }
  }

  lemma {:induction false} AckedAll(acks: seq<Ack>, from: nat, d: string)
    requires AcksFrom(acks, from, d)
    ensures |AckedSequences(acks)| == |acks|
    ensures forall i :: 0 <= i < |acks| ==> AckedSequences(acks)[i] == from + i + 1
  {
    if acks != [] {
      TailAt(acks);
      AckedAll(acks[1..], from + 1, d);
    }
  }

  // ---------------------------------------------------------------------------
  // Gateway facts
  // ---------------------------------------------------------------------------

  /** `g'` agrees with `g` on every device but `d`. */
  ghost predicate SameElsewhere(g: Gateway, g': Gateway, d: string) {
    && (forall x, n :: x != d ==> ((x, n) in g'.accepted <==> (x, n) in g.accepted))
    && (forall x, n :: x != d && (x, n) in g.accepted ==> (x, n) in g'.accepted && g'.accepted[(x, n)] == g.accepted[(x, n)])
    && (forall x :: x != d ==> HighWater(g', x) == HighWater(g, x))
  }

  lemma {:induction false} HandleRecordLeavesOthers(g: Gateway, r: SignedRecord)
    ensures SameElsewhere(g, HandleRecord(g, r).gateway, r.device)
  {
  }

  lemma {:induction false} SameElsewhereTwice(g: Gateway, g1: Gateway, g2: Gateway, d: string)
    requires SameElsewhere(g, g1, d) && SameElsewhere(g1, g2, d)
    ensures SameElsewhere(g, g2, d)
  {
    hide HighWater;
  }

  /** Handling records of one device touches no other device. */
  lemma {:induction false} HandleLeavesOthers(g: Gateway, d: string, records: seq<SignedRecord>)
    requires forall i :: 0 <= i < |records| ==> records[i].device == d
    ensures SameElsewhere(g, HandleAll(g, records).gateway, d)
    decreases |records|
  {
    if records != [] {
      TailAt(records);
      var g1 := HandleRecord(g, records[0]).gateway;
      HandleRecordLeavesOthers(g, records[0]);
      hide HandleRecord, SameElsewhere;
      HandleLeavesOthers(g1, d, records[1..]);
      SameElsewhereTwice(g, g1, HandleAll(g, records).gateway, d);
    }
  }

  /** The next record of the outbox is accepted, or was accepted before. */
  lemma {:induction false} HandleNext(g: Gateway, rows: seq<Row>, d: string, from: nat)
    requires Numbered(rows, d) && GatewayMirrors(g, rows, d) && from < |rows| && from <= HighWater(g, d)
    ensures var h := HandleRecord(g, rows[from].record);
      && GatewayMirrors(h.gateway, rows, d)
      && h.ack.sequence == from + 1 && h.ack.device == d && h.ack.status != Rejected
      && HighWater(h.gateway, d) == (if from + 1 > HighWater(g, d) then from + 1 else HighWater(g, d))
  {
  }

  /** Handling an honest batch: nothing is rejected, the gateway still mirrors the outbox, and it has
      every record of the batch. */
  lemma {:induction false} HandleConsecutive(g: Gateway, rows: seq<Row>, d: string, records: seq<SignedRecord>, from: nat)
    requires Numbered(rows, d) && GatewayMirrors(g, rows, d)
    requires Consecutive(records, rows, from) && from <= HighWater(g, d)
    ensures var h := HandleAll(g, records);
      && |h.acks| == |records| && AcksFrom(h.acks, from, d)
      && GatewayMirrors(h.gateway, rows, d)
      && HighWater(h.gateway, d) == (if from + |records| > HighWater(g, d) then from + |records| else HighWater(g, d))
    decreases |records|
  {
    if records != [] {
      TailAt(records);
      assert records[0] == rows[from].record;
      HandleNext(g, rows, d, from);
      hide HandleRecord, Numbered, GatewayMirrors;
      HandleConsecutive(HandleRecord(g, records[0]).gateway, rows, d, records[1..], from + 1);
    }
  }

  lemma {:induction false} ConsecutiveDevice(records: seq<SignedRecord>, rows: seq<Row>, d: string, from: nat)
    requires Numbered(rows, d) && Consecutive(records, rows, from)
    ensures forall i :: 0 <= i < |records| ==> records[i].device == d
  {
  }

  // ---------------------------------------------------------------------------
  // Every step keeps the invariant
  // ---------------------------------------------------------------------------

  /** A table that grew by one pending row keeps what was true of the device. */
  lemma {:induction false} HonestGrows(rows: seq<Row>, row: Row, m: nat, g: Gateway, d: string)
    requires Honest(rows, m, g, d)
    requires row.record.sequence == |rows| + 1 && row.record.device == d && Verifies(row.record) && !row.synced
    ensures Honest(rows + [row], m, g, d)
  {
    var rows' := rows + [row];
    assert forall i :: 0 <= i < |rows| ==> rows'[i] == rows[i];
  }

  lemma {:induction false} EnqueueKeeps(s: System, e: Event, d: string)
    requires Inv(s) && e.EnqueueEvent?
    ensures DeviceOk(Step(s, e), d)
  {
    assert DeviceOk(s, d);
    var m :| DeviceFits(s, d, m);
    var s', rows, rows' := Step(s, e), Rows(s, d), Rows(Step(s, e), d);
    if rows' != rows {
      MaxOfNumbered(rows, 0);
      assert rows' == rows + [rows'[|rows|]];
      HonestGrows(rows, rows'[|rows|], m, s.gateway, d);
    }
    hide Honest, PendingCount, MaxSequence;
    forall b | b in s'.requests && b.device == d ensures RequestFits(b, rows', m) {
      RequestStays(b, rows, rows', m, m);
    }
    assert DeviceFits(s', d, m);
  }

  lemma {:induction false} PendingFits(rows: seq<Row>, d: string, m: nat, limit: nat)
    requires Numbered(rows, d) && SyncedUpTo(rows, m)
    ensures RequestFits(Batch(d, Pending(rows, limit)), rows, m)
  {
    PendingNumbered(rows, m, limit);
    hide Pending;
    assert Consecutive(Pending(rows, limit), rows, m);
  }

  lemma {:induction false} SendKeeps(s: System, e: Event, d: string)
    requires Inv(s) && e.SendEvent? && Enabled(s, e)
    ensures DeviceOk(Step(s, e), d)
  {
    assert DeviceOk(s, d);
    var m :| DeviceFits(s, d, m);
    PendingFits(Rows(s, d), d, m, e.limit);
    hide Honest, RequestFits, ReplyFits, Pending;
    assert DeviceFits(Step(s, e), d, m);
  }

  /** Delivery of a batch of `d`: `d`'s own view, and what the reply says. */
  lemma {:induction false} DeliverKeepsOwn(s: System, e: Event)
    requires Inv(s) && e.DeliverEvent? && Enabled(s, e)
    ensures DeviceOk(Step(s, e), e.batch.device)
  {
    var d, b, s' := e.batch.device, e.batch, Step(s, e);
    assert DeviceOk(s, d);
    var m :| DeviceFits(s, d, m);
    assert RequestFits(b, Rows(s, d), m);
    var from: nat :| from <= m && Consecutive(b.records, Rows(s, d), from);
    HandleConsecutive(s.gateway, Rows(s, d), d, b.records, from);
    assert forall r :: r in s'.replies ==> r in s.replies || r == Reply(d, HandleAll(s.gateway, b.records).acks);
    hide HandleAll, Numbered, SyncedUpTo, Consecutive, GatewayMirrors, AcksFrom;
    forall r | r in s'.replies && r.device == d ensures ReplyFits(r, m, HighWater(s'.gateway, d)) {
      if r in s.replies {
        var f: nat :| f <= m && f + |r.acks| <= HighWater(s.gateway, d) && AcksFrom(r.acks, f, d);
      } else {
        assert AcksFrom(r.acks, from, d);
      }
    }
    assert DeviceFits(s', d, m);
  }

  lemma {:induction false} DeliverKeepsOther(s: System, e: Event, d: string)
    requires Inv(s) && e.DeliverEvent? && Enabled(s, e) && d != e.batch.device
    ensures DeviceOk(Step(s, e), d)
  {
    var b, s', own := e.batch, Step(s, e), e.batch.device;
    assert DeviceOk(s, own) && DeviceOk(s, d);
    var mb :| DeviceFits(s, own, mb);
    assert RequestFits(b, Rows(s, own), mb);
    var from: nat :| from <= mb && Consecutive(b.records, Rows(s, own), from);
    ConsecutiveDevice(b.records, Rows(s, own), own, from);
    HandleLeavesOthers(s.gateway, own, b.records);
    hide HandleAll, Numbered, SyncedUpTo, Consecutive, AcksFrom;
    var m :| DeviceFits(s, d, m);
    assert GatewayMirrors(s'.gateway, Rows(s, d), d);
    hide GatewayMirrors;
    assert DeviceFits(s', d, m);
  }

  lemma {:induction false} SameRecords(rows: seq<Row>, rows': seq<Row>)
    requires Records(rows') == Records(rows)
    ensures |rows'| == |rows| && forall i :: 0 <= i < |rows| ==> rows'[i].record == rows[i].record
  {
    assert |Records(rows')| == |rows'| && |Records(rows)| == |rows|;
    assert forall i :: 0 <= i < |rows| ==> Records(rows)[i] == rows[i].record && Records(rows')[i] == rows'[i].record;
  }

  /** A reply that fits, marked: more rows are synced, none that the gateway lacks. */
  lemma {:induction false} MarkedHonest(rows: seq<Row>, d: string, m: nat, g: Gateway, acks: seq<Ack>, from: nat)
    requires Honest(rows, m, g, d) && from <= m && from + |acks| <= HighWater(g, d) && AcksFrom(acks, from, d)
    ensures var rows', m' := MarkSynced(rows, AckedSequences(acks)), if from + |acks| > m then from + |acks| else m;
      Honest(rows', m', g, d) && Records(rows') == Records(rows) && m' >= m
  {
    AckedAll(acks, from, d);
    MarkConsecutive(rows, d, m, AckedSequences(acks), from);
    SameRecords(rows, MarkSynced(rows, AckedSequences(acks)));
    hide MarkSynced, AckedSequences, Numbered, SyncedUpTo, Records;
  }

  lemma {:induction false} RequestStays(b: Batch, rows: seq<Row>, rows': seq<Row>, m: nat, m': nat)
    requires RequestFits(b, rows, m) && m <= m' && |rows| <= |rows'|
    requires forall i :: 0 <= i < |rows| ==> rows'[i].record == rows[i].record
    ensures RequestFits(b, rows', m')
  {
    var from: nat :| from <= m && Consecutive(b.records, rows, from);
    assert Consecutive(b.records, rows', from);
  }

  lemma {:induction false} ReplyStays(r: Reply, m: nat, m': nat, hw: int, hw': int)
    requires ReplyFits(r, m, hw) && m <= m' && hw <= hw'
    ensures ReplyFits(r, m', hw')
  {
    var from: nat :| from <= m && from + |r.acks| <= hw && AcksFrom(r.acks, from, r.device);
    assert AcksFrom(r.acks, from, r.device);
  }

  lemma {:induction false} MarkKeeps(s: System, e: Event, d: string)
    requires Inv(s) && e.MarkEvent? && Enabled(s, e)
    ensures DeviceOk(Step(s, e), d)
  {
    assert DeviceOk(s, d);
    hide MarkSynced, AckedSequences, Honest, Records, RequestFits;
    var m :| DeviceFits(s, d, m);
    var r, s' := e.reply, Step(s, e);
    if d != r.device {
      assert DeviceFits(s', d, m);
    } else {
      var rows, rows' := Rows(s, d), Rows(s', d);
      assert ReplyFits(r, m, HighWater(s.gateway, d));
      var from: nat :| from <= m && from + |r.acks| <= HighWater(s.gateway, d) && AcksFrom(r.acks, from, d);
      var acks := Firsts(r.acks, e.upTo);
      assert AcksFrom(acks, from, d) && |acks| <= |r.acks|;
      MarkedHonest(rows, d, m, s.gateway, acks, from);
      SameRecords(rows, rows');
      hide ReplyFits, AcksFrom, Firsts;
      var m' := if from + |acks| > m then from + |acks| else m;
      forall b | b in s'.requests && b.device == d ensures RequestFits(b, rows', m') {
        RequestStays(b, rows, rows', m, m');
      }
      forall q | q in s'.replies && q.device == d ensures ReplyFits(q, m', HighWater(s'.gateway, d)) {
        ReplyStays(q, m, m', HighWater(s.gateway, d), HighWater(s'.gateway, d));
      }
      assert DeviceFits(s', d, m');
    }
  }

  lemma {:induction false} StepKeepsInv(s: System, e: Event)
    requires Inv(s) && Enabled(s, e)
    ensures Inv(Step(s, e))
  {
    forall d ensures DeviceOk(Step(s, e), d) {
      match e
      case EnqueueEvent(_, _, _, _) => EnqueueKeeps(s, e, d);
      case SendEvent(_, _) => SendKeeps(s, e, d);
      case DeliverEvent(b) => if d == b.device { DeliverKeepsOwn(s, e); } else { DeliverKeepsOther(s, e, d); }
      case MarkEvent(_, _) => MarkKeeps(s, e, d);
    }
  }

  lemma {:induction false} RunKeepsInv(s: System, es: seq<Event>)
    requires Inv(s) && Runs(s, es)
    ensures Inv(StepAll(s, es))
    decreases |es|
  {
    if es != [] {
      StepKeepsInv(s, es[0]);
      RunKeepsInv(Step(s, es[0]), es[1..]);
    }
  }

  lemma {:induction false} StartFits()
    ensures Inv(START)
  {
    forall d ensures DeviceOk(START, d) {
      assert DeviceFits(START, d, 0);
    }
  }

  // ---------------------------------------------------------------------------
  // Main results
  // ---------------------------------------------------------------------------

  /** In every run, for every device: the gateway's accepted sequences are exactly 1 to the high-water
      mark, each with the content the device signed; every record marked synced is among them; and a
      batch in flight, delivered now for the first or the hundredth time, is rejected in no part. */
  lemma {:induction false} GatewayAgrees(es: seq<Event>, d: string)
    requires Runs(START, es)
    ensures var s := StepAll(START, es);
      var rows, hw := Rows(s, d), HighWater(s.gateway, d);
      && 0 <= hw <= |rows|
      && (forall n :: (d, n) in s.gateway.accepted <==> 1 <= n <= hw)
      && (forall i :: 0 <= i < hw ==> s.gateway.accepted[(d, i + 1)] == rows[i].record)
      && (forall i :: 0 <= i < |rows| ==> rows[i].record.sequence == i + 1)
      && (forall i :: 0 <= i < |rows| && rows[i].synced ==> i < hw)
  {
    StartFits();
    RunKeepsInv(START, es);
    var s := StepAll(START, es);
    assert DeviceOk(s, d);
  }

  lemma {:induction false} NothingHonestIsRejected(es: seq<Event>, b: Batch)
    requires Runs(START, es) && b in StepAll(START, es).requests
    ensures forall i :: 0 <= i < |HandleAll(StepAll(START, es).gateway, b.records).acks| ==>
      HandleAll(StepAll(START, es).gateway, b.records).acks[i].status != Rejected
  {
    StartFits();
    RunKeepsInv(START, es);
    var s := StepAll(START, es);
    assert DeviceOk(s, b.device);
    var m :| DeviceFits(s, b.device, m);
    var from: nat :| from <= m && Consecutive(b.records, Rows(s, b.device), from);
    HandleConsecutive(s.gateway, Rows(s, b.device), b.device, b.records, from);
  }

  /** No sequence is ever reused and no record ever changes or disappears: later tables extend earlier
      ones, and a row that was synced stays synced. */
  ghost predicate Extends(rows: seq<Row>, rows': seq<Row>) {
    |rows| <= |rows'| && forall i :: 0 <= i < |rows| ==> rows'[i].record == rows[i].record && (rows[i].synced ==> rows'[i].synced)
  }

  lemma {:induction false} MarkExtends(rows: seq<Row>, acked: seq<int>)
    ensures Extends(rows, MarkSynced(rows, acked))
    decreases |acked|
  {
    if acked != [] {
      MarkExtends(MarkOne(rows, acked[0]), acked[1..]);
    }
  }

  lemma {:induction false} RecordsArePermanent(s: System, es: seq<Event>, d: string)
    ensures Extends(Rows(s, d), Rows(StepAll(s, es), d))
    decreases |es|
  {
    if es != [] {
      var s1 := Step(s, es[0]);
      if es[0].MarkEvent? {
        MarkExtends(Rows(s, es[0].reply.device), AckedSequences(Firsts(es[0].reply.acks, es[0].upTo)));
      }
      RecordsArePermanent(s1, es[1..], d);
    }
  }
}
