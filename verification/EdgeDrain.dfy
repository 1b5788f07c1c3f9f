/** What the sync engine promises: it is one more client of the protocol, and it drains the outbox when
    the gateway can be reached. */
module EdgeDrain {
  import opened Sequences
  import opened EdgeSync
  import opened EdgeProtocol
  import opened EdgeEngine

  // ---------------------------------------------------------------------------
  // Refinement: one sync is a run of the protocol
  // ---------------------------------------------------------------------------

  lemma {:induction false} RunsAppend(s: System, a: seq<Event>, b: seq<Event>)
    requires Runs(s, a) && Runs(StepAll(s, a), b)
    ensures Runs(s, a + b) && StepAll(s, a + b) == StepAll(StepAll(s, a), b)
    decreases |a|
  {
    hide Step, Enabled;
    if a == [] {
      assert a + b == b;
    } else {
      assert (a + b)[0] == a[0] && (a + b)[1..] == a[1..] + b;
      RunsAppend(Step(s, a[0]), a[1..], b);
    }
  }

  function PushEvents(c: Config, b: Batch, attempts: nat, retries: nat): seq<Event>
    decreases retries
  {
    var rest := if retries == 0 then [] else PushEvents(c, b, attempts + 1, retries - 1);
    match c.net(attempts)
    case Delivered => [DeliverEvent(b)]
    case RequestLost => rest
    case ReplyLost => [DeliverEvent(b)] + rest
  }

  lemma {:induction false} PushRefines(s: System, c: Config, b: Batch, attempts: nat, retries: nat)
    requires b in s.requests
    ensures var es, p := PushEvents(c, b, attempts, retries), Push(c, s.gateway, b.records, attempts, retries);
      && Runs(s, es)
      && StepAll(s, es).devices == s.devices && StepAll(s, es).gateway == p.gateway
      && (p.ok ==> Reply(b.device, p.acks) in StepAll(s, es).replies)
    decreases retries
  {
    hide HandleAll;
    var e := DeliverEvent(b);
    var s' := Step(s, e);
    match c.net(attempts)
    case Delivered =>
      assert StepAll(s, [e]) == s';
    case RequestLost =>
      if retries > 0 { PushRefines(s, c, b, attempts + 1, retries - 1); }
    case ReplyLost =>
      assert StepAll(s, [e]) == s';
      if retries > 0 {
        PushRefines(s', c, b, attempts + 1, retries - 1);
        RunsAppend(s, [e], PushEvents(c, b, attempts + 1, retries - 1));
      }
  }

  /** The system after `d`'s client has done something: nobody else's outbox has moved. */
  ghost predicate ClientMoved(s: System, s': System, d: string, w': World) {
    Rows(s', d) == w'.rows && s'.gateway == w'.gateway && forall x :: x != d ==> Rows(s', x) == Rows(s, x)
  }

  /** The protocol's events of a sync that marks the first `upTo` acks of its reply. */
  function CutEvents(c: Config, w: World, upTo: nat): seq<Event> {
    var records := Pending(w.rows, c.batchSize);
    if records == [] then []
    else
      var push := Push(c, w.gateway, records, w.attempts, c.maxRetries);
      [SendEvent(c.device, c.batchSize)] + PushEvents(c, Batch(c.device, records), w.attempts, c.maxRetries) +
      (if SyncOnce(c, w).outcome.Acked? then [MarkEvent(Reply(c.device, push.acks), upTo)] else [])
  }

  /** What such a sync leaves. */
  function CutShort(c: Config, w: World, upTo: nat): World {
    var records := Pending(w.rows, c.batchSize);
    var w' := SyncOnce(c, w).world;
    if records == [] || !SyncOnce(c, w).outcome.Acked? then w'
    else
      var push := Push(c, w.gateway, records, w.attempts, c.maxRetries);
      w'.(rows := MarkSynced(w.rows, AckedSequences(Firsts(push.acks, upTo))))
  }

  /** Whatever the network and the bus do, and wherever among its marks it dies, a sync is a run of the
      protocol: it inherits its safety. */
  lemma {:induction false} CutShortRefines(s: System, c: Config, w: World, upTo: nat)
    ensures Rows(s, c.device) == w.rows && s.gateway == w.gateway ==>
      Runs(s, CutEvents(c, w, upTo)) && ClientMoved(s, StepAll(s, CutEvents(c, w, upTo)), c.device, CutShort(c, w, upTo))
  {
    hide Pending, HandleAll, Publish, MarkSynced, AckedSequences;
    var records := Pending(w.rows, c.batchSize);
    if Rows(s, c.device) == w.rows && s.gateway == w.gateway && records != [] {
      var b := Batch(c.device, records);
      var send, pushes := SendEvent(c.device, c.batchSize), PushEvents(c, b, w.attempts, c.maxRetries);
      var s1 := Step(s, send);
      assert StepAll(s, [send]) == s1 && b in s1.requests && s1.devices == s.devices && s1.gateway == s.gateway;
      PushRefines(s1, c, b, w.attempts, c.maxRetries);
      RunsAppend(s, [send], pushes);
      hide Push, PushEvents, Firsts;
      var push := Push(c, w.gateway, records, w.attempts, c.maxRetries);
      var s2 := StepAll(s, [send] + pushes);
      if SyncOnce(c, w).outcome.Acked? {
        var mark := MarkEvent(Reply(c.device, push.acks), upTo);
        assert Runs(s2, [mark]) && StepAll(s2, [mark]) == Step(s2, mark);
        RunsAppend(s, [send] + pushes, [mark]);
      } else {
        assert [send] + pushes + [] == [send] + pushes;
      }
    }
  }

  /** A sync that lives marks its whole reply. */
  function SyncEvents(c: Config, w: World): seq<Event> {
    CutEvents(c, w, |Push(c, w.gateway, Pending(w.rows, c.batchSize), w.attempts, c.maxRetries).acks|)
  }

  lemma {:induction false} SyncOnceRefines(s: System, c: Config, w: World)
    ensures Rows(s, c.device) == w.rows && s.gateway == w.gateway ==>
      Runs(s, SyncEvents(c, w)) && ClientMoved(s, StepAll(s, SyncEvents(c, w)), c.device, SyncOnce(c, w).world)
  {
    var upTo := |Push(c, w.gateway, Pending(w.rows, c.batchSize), w.attempts, c.maxRetries).acks|;
    CutShortRefines(s, c, w, upTo);
    hide Pending, Push, Publish, MarkSynced, AckedSequences, CutEvents;
    assert CutShort(c, w, upTo) == SyncOnce(c, w).world;
  }

  // ---------------------------------------------------------------------------
  // Progress
  // ---------------------------------------------------------------------------

  /** Every row of attempts the engine is willing to make has one that gets through. */
  ghost predicate Reachable(c: Config) {
    forall at: nat :: GetsThrough(c, at, c.maxRetries)
  }

  ghost predicate GetsThrough(c: Config, at: nat, retries: nat) {
    exists k: nat :: at <= k <= at + retries && c.net(k) == Delivered
  }

  ghost predicate BusWorks(c: Config) {
    !c.bus || forall n: nat :: c.busUp(n)
  }

  lemma {:induction false} PendingCountIs(rows: seq<Row>, m: int)
    requires forall i :: 0 <= i < |rows| ==> (rows[i].synced <==> i < m)
    ensures PendingCount(rows) == if m <= 0 then |rows| else if m >= |rows| then 0 else |rows| - m
  {
    if rows != [] {
      TailAt(rows);
      assert rows[0].synced <==> 0 < m;
      PendingCountIs(rows[1..], m - 1);
    }
  }

  /** Pushing the batch that starts at the first pending row. */
  lemma {:induction false} PushHonest(c: Config, g: Gateway, rows: seq<Row>, d: string, records: seq<SignedRecord>, from: nat, attempts: nat, retries: nat)
    requires Numbered(rows, d) && GatewayMirrors(g, rows, d) && Consecutive(records, rows, from) && from <= HighWater(g, d)
    ensures var p := Push(c, g, records, attempts, retries);
      && GatewayMirrors(p.gateway, rows, d) && HighWater(p.gateway, d) >= HighWater(g, d)
      && (p.ok ==> AcksFrom(p.acks, from, d) && |p.acks| == |records| && from + |records| <= HighWater(p.gateway, d))
      && (GetsThrough(c, attempts, retries) ==> p.ok)
    decreases retries
  {
    HandleConsecutive(g, rows, d, records, from);
    hide HandleAll, HandleRecord, Numbered, GatewayMirrors, Consecutive, AcksFrom;
    var g' := if c.net(attempts) == RequestLost then g else HandleAll(g, records).gateway;
    if c.net(attempts) != Delivered && retries > 0 {
      PushHonest(c, g', rows, d, records, from, attempts + 1, retries - 1);
    }
  }

  lemma {:induction false} IndexHas(records: seq<SignedRecord>, from: nat)
    requires forall i :: 0 <= i < |records| ==> records[i].sequence == from + i + 1
    ensures forall q :: q in BySequence(records) <==> from < q <= from + |records|
    ensures forall q :: q in BySequence(records) ==> BySequence(records)[q].sequence == q
    ensures forall i :: 0 <= i < |records| ==> BySequence(records)[from + i + 1] == records[i]
  {
    if records != [] {
      var n := |records| - 1;
      IndexHas(records[..n], from);
    }
  }

  lemma {:induction false} PublishSucceeds(c: Config, index: map<int, SignedRecord>, acked: seq<int>, log: seq<Message>, publishes: nat)
    requires (forall i :: 0 <= i < |acked| ==> acked[i] in index) && forall n: nat :: c.busUp(n)
    ensures Publish(c, index, acked, log, publishes).ok
    decreases |acked|
  {
    if acked != [] {
      TailAt(acked);
      var payload := index[acked[0]].payload;
      if payload.kind in c.channels {
        PublishSucceeds(c, index, acked[1..], log + [Message(c.channels[payload.kind], payload, acked[0])], publishes + 1);
      } else {
        PublishSucceeds(c, index, acked[1..], log, publishes);
      }
    }
  }

  /** The batch `sync_once` sends. */
  lemma {:induction false} BatchIs(rows: seq<Row>, m: nat, limit: nat)
    requires Sequenced(rows) && SyncedUpTo(rows, m)
    ensures var records := Pending(rows, limit);
      && |records| == Min(limit, |rows| - m) && Consecutive(records, rows, m)
      && (forall i :: 0 <= i < |records| ==> records[i].sequence == m + i + 1)
  {
    PendingNumbered(rows, m, limit);
  }

  /** The gateway mirrors the records, whatever their status. */
  lemma {:induction false} MirrorsKept(g: Gateway, rows: seq<Row>, rows': seq<Row>, d: string)
    requires GatewayMirrors(g, rows, d) && Records(rows') == Records(rows)
    ensures GatewayMirrors(g, rows', d) && |rows'| == |rows|
  {
    assert |Records(rows')| == |rows'| && |Records(rows)| == |rows|;
    assert forall i :: 0 <= i < |rows| ==> Records(rows)[i] == rows[i].record && Records(rows')[i] == rows'[i].record;
  }

  /** Publishing and marking a batch that was acknowledged in full. */
  lemma {:induction false} AfterPushHonest(c: Config, w: World, records: seq<SignedRecord>, acks: seq<Ack>, m: nat)
    requires Numbered(w.rows, c.device) && SyncedUpTo(w.rows, m) && GatewayMirrors(w.gateway, w.rows, c.device)
    requires AcksFrom(acks, m, c.device) && |acks| == |records| && m + |records| <= HighWater(w.gateway, c.device)
    requires forall i :: 0 <= i < |records| ==> records[i].sequence == m + i + 1
    ensures var r := AfterPush(c, w, records, acks);
      && (r.outcome.Acked? ==> r.outcome.n == |records| && Honest(r.world.rows, m + |records|, w.gateway, c.device))
      && (!r.outcome.Acked? ==> r.world.rows == w.rows)
      && r.world.gateway == w.gateway && |r.world.rows| == |w.rows|
      && (BusWorks(c) ==> r.outcome.Acked?)
  {
    var acked := AckedSequences(acks);
    AckedAll(acks, m, c.device);
    hide AckedSequences, AcksFrom;
    MarkConsecutive(w.rows, c.device, m, acked, m);
    MirrorsKept(w.gateway, w.rows, MarkSynced(w.rows, acked), c.device);
    IndexHas(records, m);
    if BusWorks(c) && c.bus {
      PublishSucceeds(c, BySequence(records), acked, w.log, w.publishes);
    }
    hide Publish, MarkSynced, BySequence, Numbered, SyncedUpTo, GatewayMirrors, Records;
  }

  /** Acknowledged or not, `sync_once` keeps the device honest: either a whole batch is marked or
      nothing is. */
  lemma {:induction false} SyncOnceHonest(c: Config, w: World, m: nat)
    requires Honest(w.rows, m, w.gateway, c.device)
    ensures var r := SyncOnce(c, w);
      var n := Min(c.batchSize, |w.rows| - m);
      && n >= 0 && |r.world.rows| == |w.rows|
      && (r.outcome.Acked? ==> r.outcome.n == n && Honest(r.world.rows, m + n, r.world.gateway, c.device))
      && (!r.outcome.Acked? ==> n > 0 && r.world.rows == w.rows && Honest(w.rows, m, r.world.gateway, c.device))
      && (Reachable(c) && BusWorks(c) ==> r.outcome.Acked?)
  {
    var d, rows := c.device, w.rows;
    BatchIs(rows, m, c.batchSize);
    var records := Pending(rows, c.batchSize);
    if records != [] {
      PushHonest(c, w.gateway, rows, d, records, m, w.attempts, c.maxRetries);
      var p := Push(c, w.gateway, records, w.attempts, c.maxRetries);
      var w' := w.(gateway := p.gateway, attempts := p.attempts);
      assert Reachable(c) ==> p.ok by {
        if Reachable(c) { assert GetsThrough(c, w.attempts, c.maxRetries); }
      }
      hide Push, Pending, GetsThrough, Reachable;
      if p.ok {
        AfterPushHonest(c, w', records, p.acks, m);
      }
      hide AfterPush, Numbered, SyncedUpTo, GatewayMirrors, Consecutive, AcksFrom, BusWorks;
    }
  }

  /** How many records that many batches can take. */
  function Room(batches: nat, batchSize: nat): nat { batches * batchSize }

  /** The drained end: `n` acknowledged in all, every row synced. */
  ghost predicate Drained(c: Config, r: Synced, n: nat, size: nat) {
    r.outcome == Acked(n) && |r.world.rows| == size && Honest(r.world.rows, size, r.world.gateway, c.device)
  }

  lemma {:induction false} SyncAllDrainsFrom(c: Config, w: World, m: nat, left: nat, batches: nat, total: nat)
    requires Honest(w.rows, m, w.gateway, c.device) && Reachable(c) && BusWorks(c)
    requires c.batchSize > 0 && m + left == |w.rows| && left <= Room(batches, c.batchSize)
    ensures Drained(c, SyncAll(c, w, batches, total), total + left, |w.rows|)
    decreases batches
  {
    hide Reachable, BusWorks, Honest, Room;
    SyncOnceHonest(c, w, m);
    NoneLeft(left, batches, c.batchSize);
    SyncAllStep(c, w, batches, total);
    hide SyncOnce, SyncAll;
    var n := Min(c.batchSize, left);
    if batches > 0 && n > 0 {
      OneBatchFewer(left, batches, c.batchSize);
      SyncAllDrainsFrom(c, SyncOnce(c, w).world, m + n, left - n, batches - 1, total + n);
    }
  }

  lemma {:induction false} NoneLeft(pending: nat, batches: nat, batchSize: nat)
    requires pending <= Room(batches, batchSize)
    ensures batches == 0 ==> pending == 0
  {
  }

  lemma {:induction false} SyncAllStep(c: Config, w: World, batches: nat, total: nat)
    ensures batches == 0 ==> SyncAll(c, w, batches, total) == Synced(w, Acked(total))
    ensures batches > 0 && SyncOnce(c, w).outcome.Acked? ==>
      SyncAll(c, w, batches, total) ==
        if SyncOnce(c, w).outcome.n == 0 then Synced(SyncOnce(c, w).world, Acked(total))
        else SyncAll(c, SyncOnce(c, w).world, batches - 1, total + SyncOnce(c, w).outcome.n)
  {
    hide SyncOnce;
  }

  lemma {:induction false} OneBatchFewer(pending: nat, batches: nat, batchSize: nat)
    requires batches > 0 && pending <= Room(batches, batchSize)
    ensures pending - Min(batchSize, pending) <= Room(batches - 1, batchSize)
  {
    assert (batches - 1) * batchSize == batches * batchSize - batchSize;
  }

  // ---------------------------------------------------------------------------
  // Main results
  // ---------------------------------------------------------------------------

  /** The device's client, at a moment of some run of the whole system. */
  ghost predicate ClientOf(w: World, es: seq<Event>, d: string) {
    Runs(START, es) && w.rows == Rows(StepAll(START, es), d) && w.gateway == StepAll(START, es).gateway
  }

  lemma {:induction false} ClientIsHonest(w: World, es: seq<Event>, d: string) returns (m: nat)
    requires ClientOf(w, es, d)
    ensures Honest(w.rows, m, w.gateway, d) && PendingCount(w.rows) == |w.rows| - m
  {
    StartFits();
    RunKeepsInv(START, es);
    assert DeviceOk(StepAll(START, es), d);
    m :| DeviceFits(StepAll(START, es), d, m);
    PendingCountIs(w.rows, m);
  }

  /** After any history, one `sync_all` over a reachable gateway empties an outbox of at most
      `batches * batchSize` pending records, and returns how many there were. */
  lemma {:induction false} OneSyncAllDrains(es: seq<Event>, c: Config, w: World, batches: nat)
    requires ClientOf(w, es, c.device) && Reachable(c) && BusWorks(c) && c.batchSize > 0
    ensures PendingCount(w.rows) <= batches * c.batchSize ==>
      var r := SyncAll(c, w, batches, 0);
      r.outcome == Acked(PendingCount(w.rows)) && PendingCount(r.world.rows) == 0
  {
    var m := ClientIsHonest(w, es, c.device);
    if PendingCount(w.rows) <= batches * c.batchSize {
      SyncAllDrainsFrom(c, w, m, PendingCount(w.rows), batches, 0);
      PendingCountIs(SyncAll(c, w, batches, 0).world.rows, |w.rows|);
    }
  }

  /** Each `sync_once` that returns takes exactly its batch off the pending count; one that raises
      takes nothing off it. */
  lemma {:induction false} SyncOnceProgress(es: seq<Event>, c: Config, w: World)
    requires ClientOf(w, es, c.device)
    ensures var r := SyncOnce(c, w);
      && (r.outcome.Acked? ==>
            r.outcome.n == Min(c.batchSize, PendingCount(w.rows)) &&
            PendingCount(r.world.rows) == PendingCount(w.rows) - r.outcome.n)
      && (!r.outcome.Acked? ==> r.world.rows == w.rows && PendingCount(w.rows) > 0)
  {
    var m := ClientIsHonest(w, es, c.device);
    SyncOnceHonest(c, w, m);
    BatchIs(w.rows, m, c.batchSize);
    var n, r := Min(c.batchSize, |w.rows| - m), SyncOnce(c, w);
    if r.outcome.Acked? {
      PendingCountIs(r.world.rows, m + n);
    }
  }

  // ---------------------------------------------------------------------------
  // Capacity
  // ---------------------------------------------------------------------------

  lemma {:induction false} PendingCountAppend(rows: seq<Row>, row: Row)
    ensures PendingCount(rows + [row]) == PendingCount(rows) + (if row.synced then 0 else 1)
  {
    if rows == [] {
      assert rows + [row] == [row];
    } else {
      assert (rows + [row])[1..] == rows[1..] + [row];
      PendingCountAppend(rows[1..], row);
    }
  }

  lemma {:induction false} MarkOneLowers(rows: seq<Row>, q: int)
    ensures PendingCount(MarkOne(rows, q)) <= PendingCount(rows)
  {
    if rows != [] {
      assert MarkOne(rows, q)[1..] == MarkOne(rows[1..], q);
      MarkOneLowers(rows[1..], q);
    }
  }

  lemma {:induction false} MarkLowers(rows: seq<Row>, acked: seq<int>)
    ensures PendingCount(MarkSynced(rows, acked)) <= PendingCount(rows)
    decreases |acked|
  {
    if acked != [] {
      MarkOneLowers(rows, acked[0]);
      MarkLowers(MarkOne(rows, acked[0]), acked[1..]);
    }
  }

  /** No event takes a device above the capacity it enqueues under. */
  lemma {:induction false} WithinCapacity(s: System, es: seq<Event>, d: string, capacity: nat)
    requires PendingCount(Rows(s, d)) <= capacity
    requires forall i :: 0 <= i < |es| && es[i].EnqueueEvent? && es[i].device == d ==> es[i].capacity <= capacity
    ensures PendingCount(Rows(StepAll(s, es), d)) <= capacity
    decreases |es|
  {
    if es != [] {
      var s1, e := Step(s, es[0]), es[0];
      if e.MarkEvent? {
        MarkLowers(Rows(s, e.reply.device), AckedSequences(Firsts(e.reply.acks, e.upTo)));
      } else if e.EnqueueEvent? {
        var q := Enqueue(Rows(s, e.device), e.device, e.capacity, e.key, e.payload);
        if q.Queued? { PendingCountAppend(Rows(s, e.device), Row(q.record, false)); }
      }
      hide PendingCount, MarkSynced, MarkOne, MaxSequence;
      TailAt(es);
      WithinCapacity(s1, es[1..], d, capacity);
    }
  }

  const DEFAULT_CAPACITY: nat := 10_000
  const DEFAULT_BATCH_SIZE: nat := 500
  const DEFAULT_MAX_BATCHES: nat := 100

  /** At the defaults, one `sync_all` always drains. */
  lemma {:induction false} DefaultsAlwaysDrain(es: seq<Event>, c: Config, w: World)
    requires ClientOf(w, es, c.device) && Reachable(c) && BusWorks(c) && c.batchSize == DEFAULT_BATCH_SIZE
    requires forall i :: 0 <= i < |es| && es[i].EnqueueEvent? && es[i].device == c.device ==> es[i].capacity == DEFAULT_CAPACITY
    ensures var r := SyncAll(c, w, DEFAULT_MAX_BATCHES, 0);
      r.outcome == Acked(PendingCount(w.rows)) && PendingCount(r.world.rows) == 0
  {
    WithinCapacity(START, es, c.device, DEFAULT_CAPACITY);
    OneSyncAllDrains(es, c, w, DEFAULT_MAX_BATCHES);
  }
}
