/** What a device takes in and what becomes of it: a record is refused only while enough rows are unsynced,
    and one that is taken in reaches the gateway with the next drain. */
module EdgeIntake {
  import opened Sequences
  import opened EdgeSync
  import opened EdgeProtocol
  import opened EdgeEngine
  import opened EdgeDrain

  // ---------------------------------------------------------------------------
  // Taking a record in
  // ---------------------------------------------------------------------------

  /** Which rows are unsynced. */
  function Unsynced(rows: seq<Row>): set<int> {
    set i | 0 <= i < |rows| && !rows[i].synced
  }

  lemma {:induction false} PendingCountIsUnsynced(rows: seq<Row>)
    ensures PendingCount(rows) == |Unsynced(rows)|
    decreases |rows|
  {
    if rows == [] {
      assert Unsynced(rows) == {};
    } else {
      var n := |rows| - 1;
      PendingCountIsUnsynced(rows[..n]);
      PendingCountAppend(rows[..n], rows[n]);
      assert rows == rows[..n] + [rows[n]];
      assert Unsynced(rows) == Unsynced(rows[..n]) + (if rows[n].synced then {} else {n});
    }
  }

  /** At any moment of any run a record is refused if and only if `capacity` rows or more are unsynced; else the
      table gains exactly one row, pending and signed, numbered one above the last. */
  lemma {:induction false} TakenInIff(es: seq<Event>, w: World, d: string, capacity: nat, key: PublicKey, payload: Payload)
    requires ClientOf(w, es, d)
    ensures var q := Enqueue(w.rows, d, capacity, key, payload);
      && (q.Full? <==> |Unsynced(w.rows)| >= capacity)
      && (q.Queued? ==>
            && q.rows == w.rows + [Row(q.record, false)]
            && q.record.sequence == |w.rows| + 1 && q.record.device == d && q.record.payload == payload
            && q.record.signer == key && Verifies(q.record))
  {
    var m := ClientIsHonest(w, es, d);
    PendingCountIsUnsynced(w.rows);
    MaxOfNumbered(w.rows, 0);
  }

  /** After a drain the device takes records in again, under any positive capacity. */
  lemma {:induction false} DrainMakesRoom(es: seq<Event>, c: Config, w: World, batches: nat, capacity: nat, key: PublicKey, payload: Payload)
    requires ClientOf(w, es, c.device) && Reachable(c) && BusWorks(c) && c.batchSize > 0 && capacity > 0
    requires |Unsynced(w.rows)| <= batches * c.batchSize
    ensures var rows := SyncAll(c, w, batches, 0).world.rows;
      var q := Enqueue(rows, c.device, capacity, key, payload);
      && Unsynced(rows) == {} && |rows| == |w.rows|
      && q.Queued? && q.record.sequence == |w.rows| + 1 && q.rows == rows + [Row(q.record, false)]
  {
    PendingCountIsUnsynced(w.rows);
    var m := ClientIsHonest(w, es, c.device);
    SyncAllDrainsFrom(c, w, m, PendingCount(w.rows), batches, 0);
    hide SyncAll, PendingCount, Reachable, BusWorks;
    var rows := SyncAll(c, w, batches, 0).world.rows;
    PendingCountIs(rows, |rows|);
    MaxOfNumbered(rows, 0);
  }

  // ---------------------------------------------------------------------------
  // From the device to the gateway
  // ---------------------------------------------------------------------------

  lemma {:induction false} SyncAllExtends(c: Config, w: World, batches: nat, total: nat)
    ensures Extends(w.rows, SyncAll(c, w, batches, total).world.rows)
    decreases batches
  {
    hide Push, Publish, MarkSynced, AckedSequences, Pending;
    if batches > 0 {
      var push := Push(c, w.gateway, Pending(w.rows, c.batchSize), w.attempts, c.maxRetries);
      MarkExtends(w.rows, AckedSequences(push.acks));
      SyncAllExtends(c, SyncOnce(c, w).world, batches - 1, if SyncOnce(c, w).outcome.Acked? then total + SyncOnce(c, w).outcome.n else 0);
    }
  }

  lemma {:induction false} EnqueueIsAStep(es: seq<Event>, w: World, d: string, capacity: nat, key: PublicKey, payload: Payload)
    requires ClientOf(w, es, d)
    ensures var q := Enqueue(w.rows, d, capacity, key, payload);
      q.Queued? ==> ClientOf(w.(rows := q.rows), es + [EnqueueEvent(d, capacity, key, payload)], d)
  {
    var e := EnqueueEvent(d, capacity, key, payload);
    var s := StepAll(START, es);
    hide Enqueue;
    assert Runs(s, [e]) && StepAll(s, [e]) == Step(s, e) by { assert [e][1..] == []; }
    RunsAppend(START, es, [e]);
  }

  /** A record taken in at any moment of any run is at the gateway, as it was taken in, after one `sync_all`
      that reaches it with room for all pending records. */
  lemma {:induction false} TakenInIsDelivered(es: seq<Event>, c: Config, w: World, batches: nat, capacity: nat, key: PublicKey, payload: Payload)
    requires ClientOf(w, es, c.device) && Reachable(c) && BusWorks(c) && c.batchSize > 0
    requires |Unsynced(w.rows)| < capacity && |Unsynced(w.rows)| < batches * c.batchSize
    ensures var q := Enqueue(w.rows, c.device, capacity, key, payload);
      && q.Queued?
      && var w' := SyncAll(c, w.(rows := q.rows), batches, 0).world;
      && (c.device, |w.rows| + 1) in w'.gateway.accepted && w'.gateway.accepted[(c.device, |w.rows| + 1)] == q.record
      && q.record.payload == payload && Unsynced(w'.rows) == {}
  {
    TakenInIff(es, w, c.device, capacity, key, payload);
    var q, e := Enqueue(w.rows, c.device, capacity, key, payload), EnqueueEvent(c.device, capacity, key, payload);
    EnqueueIsAStep(es, w, c.device, capacity, key, payload);
    hide Enqueue;
    PendingCountIsUnsynced(w.rows);
    PendingCountAppend(w.rows, Row(q.record, false));
    var w1 := w.(rows := q.rows);
    var m := ClientIsHonest(w1, es + [e], c.device);
    hide PendingCount, ClientOf, SyncAll;
    SyncAllDrainsFrom(c, w1, m, PendingCount(w1.rows), batches, 0);
    SyncAllExtends(c, w1, batches, 0);
    var w' := SyncAll(c, w1, batches, 0).world;
    assert w'.rows[|w.rows|].record == q.record;
  }

  // ---------------------------------------------------------------------------
  // Attempts and messages
  // ---------------------------------------------------------------------------

  /** A push stops at the first attempt that is delivered and gives up after `retries` more than one. */
  lemma {:induction false} PushAttempts(c: Config, g: Gateway, records: seq<SignedRecord>, attempts: nat, retries: nat)
    ensures var p := Push(c, g, records, attempts, retries);
      && (p.ok <==> GetsThrough(c, attempts, retries))
      && (p.ok ==> attempts < p.attempts <= attempts + retries + 1 && c.net(p.attempts - 1) == Delivered
                   && forall k :: attempts <= k < p.attempts - 1 ==> c.net(k) != Delivered)
      && (!p.ok ==> p.attempts == attempts + retries + 1 && p.acks == [])
    decreases retries
  {
    hide HandleAll;
    if c.net(attempts) == Delivered {
      assert GetsThrough(c, attempts, retries);
    } else if retries > 0 {
      var g' := if c.net(attempts) == RequestLost then g else HandleAll(g, records).gateway;
      PushAttempts(c, g', records, attempts + 1, retries - 1);
    }
  }

  /** How one sync ends: with nothing to send at once, unreachable exactly if no attempt it may make is delivered, and
      otherwise short of an acknowledgement only when the bus fails. */
  lemma {:induction false} SyncOnceEnds(es: seq<Event>, c: Config, w: World)
    requires ClientOf(w, es, c.device)
    ensures var r, idle := SyncOnce(c, w), Unsynced(w.rows) == {} || c.batchSize == 0;
      && (idle ==> r == Synced(w, Acked(0)))
      && (!idle ==> (r.outcome.Unreachable? <==> !GetsThrough(c, w.attempts, c.maxRetries)))
      && (r.outcome.PublishFailed? ==> !BusWorks(c))
  {
    var m := ClientIsHonest(w, es, c.device);
    PendingCountIsUnsynced(w.rows);
    assert Unsynced(w.rows) != {} ==> |Unsynced(w.rows)| > 0;
    BatchIs(w.rows, m, c.batchSize);
    var records := Pending(w.rows, c.batchSize);
    PushAttempts(c, w.gateway, records, w.attempts, c.maxRetries);
    PushHonest(c, w.gateway, w.rows, c.device, records, m, w.attempts, c.maxRetries);
    var p := Push(c, w.gateway, records, w.attempts, c.maxRetries);
    hide Push, Pending, GetsThrough, BusWorks, ClientOf, Numbered, GatewayMirrors, PendingCount, Unsynced;
    if records != [] && p.ok {
      AfterPushHonest(c, w.(gateway := p.gateway, attempts := p.attempts), records, p.acks, m);
      hide AcksFrom, AfterPush;
    }
  }

  lemma {:induction false} RoomStep(batches: nat, batchSize: nat)
    requires batches > 0
    ensures Room(batches, batchSize) == Room(batches - 1, batchSize) + batchSize >= batchSize
  {
    assert batches * batchSize == (batches - 1) * batchSize + batchSize;
  }

  /** What `SyncAll` owes from here: `left` rows are pending. */
  ghost predicate Takes(r: Synced, left: nat, room: nat, total: nat) {
    && (r.outcome.Acked? ==> r.outcome.n == total + Min(left, room) && PendingCount(r.world.rows) == left - Min(left, room))
    && (!r.outcome.Acked? ==> 0 < PendingCount(r.world.rows) <= left)
  }

  lemma {:induction false} OneTakes(c: Config, w: World, m: nat)
    requires Honest(w.rows, m, w.gateway, c.device)
    ensures m <= |w.rows| && PendingCount(w.rows) == |w.rows| - m
    ensures var r, n := SyncOnce(c, w), Min(c.batchSize, |w.rows| - m);
      && |r.world.rows| == |w.rows|
      && (r.outcome.Acked? ==> r.outcome.n == n && Honest(r.world.rows, m + n, r.world.gateway, c.device)
                               && PendingCount(r.world.rows) == |w.rows| - m - n)
      && (!r.outcome.Acked? ==> n > 0 && PendingCount(r.world.rows) == |w.rows| - m)
  {
    SyncOnceHonest(c, w, m);
    PendingCountIs(w.rows, m);
    var r, n := SyncOnce(c, w), Min(c.batchSize, |w.rows| - m);
    hide SyncOnce;
    if r.outcome.Acked? { PendingCountIs(r.world.rows, m + n); }
  }

  lemma {:induction false} SyncAllTakes(c: Config, w: World, m: nat, batches: nat, total: nat)
    requires Honest(w.rows, m, w.gateway, c.device) && m <= |w.rows|
    ensures Takes(SyncAll(c, w, batches, total), |w.rows| - m, Room(batches, c.batchSize), total)
    decreases batches
  {
    hide SyncOnce, Honest, PendingCount;
    OneTakes(c, w, m);
    if batches == 0 {
      assert Room(0, c.batchSize) == 0;
    } else {
      RoomStep(batches, c.batchSize);
      NoRoom(batches, c.batchSize);
      hide Room;
      var one, n := SyncOnce(c, w), Min(c.batchSize, |w.rows| - m);
      if one.outcome.Acked? && n > 0 {
        SyncAllTakes(c, one.world, m + n, batches - 1, total + n);
      }
    }
  }

  lemma {:induction false} NoRoom(batches: nat, batchSize: nat)
    ensures batchSize == 0 ==> Room(batches, batchSize) == 0
  {
  }

  /** A drain that returns has taken as many records as its batches hold, or all, and says how many; one that raises
      leaves some. */
  lemma {:induction false} SyncAllIsExact(es: seq<Event>, c: Config, w: World, batches: nat)
    requires ClientOf(w, es, c.device)
    ensures var r, taken := SyncAll(c, w, batches, 0), Min(|Unsynced(w.rows)|, batches * c.batchSize);
      && (r.outcome.Acked? ==> r.outcome.n == taken && |Unsynced(r.world.rows)| == |Unsynced(w.rows)| - taken)
      && (!r.outcome.Acked? ==> 0 < |Unsynced(r.world.rows)| <= |Unsynced(w.rows)|)
  {
    var m := ClientIsHonest(w, es, c.device);
    PendingCountIsUnsynced(w.rows);
    var r := SyncAll(c, w, batches, 0);
    PendingCountIsUnsynced(r.world.rows);
    SyncAllTakes(c, w, m, batches, 0);
    hide SyncAll, PendingCount, Unsynced, ClientOf, Honest;
  }

  /** The messages due for `acked`: one for each record of a mapped kind, in order. */
  function Due(c: Config, index: map<int, SignedRecord>, acked: seq<int>): seq<Message>
    decreases |acked|
  {
    if acked == [] then []
    else
      var n := |acked| - 1;
      var before := Due(c, index, acked[..n]);
      if acked[n] in index && index[acked[n]].payload.kind in c.channels then
        before + [Message(c.channels[index[acked[n]].payload.kind], index[acked[n]].payload, acked[n])]
      else before
  }

  lemma {:induction false} DueStep(c: Config, index: map<int, SignedRecord>, acked: seq<int>, k: nat)
    requires acked != [] && k <= |acked| - 1
    ensures Due(c, index, acked[..k + 1]) == Due(c, index, acked[..1]) + Due(c, index, acked[1..][..k])
    decreases k
  {
    if k == 0 {
      assert acked[1..][..0] == [];
    } else {
      DueStep(c, index, acked, k - 1);
      assert acked[..k + 1][..k] == acked[..k] && acked[1..][..k][..k - 1] == acked[1..][..k - 1];
      assert acked[..k + 1][k] == acked[1..][..k][k - 1];
    }
  }

  /** What a publication adds to the bus is a first part of what is due, and all of it if it succeeds. */
  lemma {:induction false} PublishesDue(c: Config, index: map<int, SignedRecord>, acked: seq<int>, log: seq<Message>, publishes: nat) returns (n: nat)
    ensures var p := Publish(c, index, acked, log, publishes);
      && n <= |acked| && p.log == log + Due(c, index, acked[..n]) && (p.ok ==> n == |acked|)
    decreases |acked|
  {
    n := 0;
    assert acked[..0] == [] && log + [] == log;
    if acked != [] && acked[0] in index {
      var payload := index[acked[0]].payload;
      assert acked[..1][..0] == [];
      if payload.kind !in c.channels {
        n := PublishesDue(c, index, acked[1..], log, publishes);
        DueStep(c, index, acked, n);
        n := n + 1;
      } else if c.busUp(publishes) {
        var log1 := log + [Message(c.channels[payload.kind], payload, acked[0])];
        n := PublishesDue(c, index, acked[1..], log1, publishes + 1);
        DueStep(c, index, acked, n);
        assert log1 + Due(c, index, acked[1..][..n]) == log + Due(c, index, acked[..n + 1]);
        n := n + 1;
      }
    }
  }
}
