/** The transactional outbox and its relay, `ledger/fundsflow/outbox.py`. What the bus accepts is an
    oracle over the calls made to it. A call that raises may have left its event, or a first part of its
    batch, on the bus all the same. */
module OutboxRelay {
  datatype Row = Row(
    eventId: string, topic: string, payload: string, idempotencyKey: string,
    published: bool, attempts: nat, seqNo: nat, dead: bool)

  datatype Message =
    | Event(topic: string, eventId: string, payload: string, idempotencyKey: string)
    | DeadLetter(eventId: string, topic: string, idempotencyKey: string, attempts: nat)

  datatype Bus = Bus(
    accepts: (nat, Message) -> bool, leaks: (nat, Message) -> bool,
    hasBatch: bool, acceptsBatch: (nat, seq<Message>) -> bool, leaksBatch: (nat, seq<Message>) -> nat)

  /** The event ends up on the bus, whether the call returns or raises. */
  predicate Lands(bus: Bus, calls: nat, m: Message) {
    bus.accepts(calls, m) || bus.leaks(calls, m)
  }

  function Put(bus: Bus, calls: nat, log: seq<Message>, m: Message): seq<Message> {
    if Lands(bus, calls, m) then log + [m] else log
  }

  /** What a refused batch has left on the bus. */
  function Leaked(bus: Bus, calls: nat, ms: seq<Message>): seq<Message> {
    var n := bus.leaksBatch(calls, ms);
    if n < |ms| then ms[..n] else ms
  }

  function Envelope(r: Row): Message {
    Event(r.topic, r.eventId, r.payload, r.idempotencyKey)
  }

  function Letter(r: Row): Message {
    DeadLetter(r.eventId, r.topic, r.idempotencyKey, r.attempts)
  }

  predicate Unacked(r: Row) {
    !r.published && !r.dead
  }

  // ---------------------------------------------------------------------------
  // Writing
  // ---------------------------------------------------------------------------

  /** Rows numbered upwards from `last + 1`. */
  function Numbered(rows: seq<Row>, last: nat): seq<Row> {
    seq(|rows|, i requires 0 <= i < |rows| => rows[i].(seqNo := last + i + 1))
  }

  datatype Tables = Tables(domain: seq<string>, outbox: seq<Row>, lastSeq: nat)

  function Commit(t: Tables, domain: seq<string>, events: seq<Row>): Tables {
    Tables(t.domain + domain, t.outbox + Numbered(events, t.lastSeq), t.lastSeq + |events|)
  }

  class InMemoryOutboxStore {
    var domainRows: seq<string>
    var outbox: seq<Row>
    var lastSeq: nat
    var crashBeforeCommit: bool

    constructor ()
      ensures Model() == Tables([], [], 0) && !crashBeforeCommit
    {
      domainRows, outbox, lastSeq, crashBeforeCommit := [], [], 0, false;
    }

    function Model(): Tables
      reads this
    {
      Tables(domainRows, outbox, lastSeq)
    }

    method NextSeq() returns (s: nat)
      modifies this`lastSeq
      ensures lastSeq == old(lastSeq) + 1 && s == lastSeq
    {
      lastSeq := lastSeq + 1;
      s := lastSeq;
    }

    /** The rows a scan visits. */
    method UnackedRows() returns (scan: seq<nat>)
      ensures scan == Scan(outbox)
    {
      scan := [];
      for i := 0 to |outbox|
        invariant scan == Scan(outbox[..i])
      {
        assert outbox[..i + 1][..i] == outbox[..i];
        if Unacked(outbox[i]) {
          scan := scan + [i];
        }
      }
      assert outbox[..|outbox|] == outbox;
    }
  }

  class InMemoryOutboxTransaction {
    const store: InMemoryOutboxStore
    var domain: seq<string>
    var events: seq<Row>
    var done: bool

    constructor (store: InMemoryOutboxStore)
      ensures this.store == store && domain == [] && events == [] && !done
    {
      this.store := store;
      domain, events, done := [], [], false;
    }

    method WriteDomain(record: string)
      modifies this`domain
      ensures domain == old(domain) + [record]
    {
      domain := domain + [record];
    }

    method WriteEvent(row: Row)
      modifies this`events
      ensures events == old(events) + [row]
    {
      events := events + [row];
    }

    /** Domain rows and events become visible together, or nothing does. */
    method CommitAll() returns (ok: bool)
      modifies this, store
      ensures done && ok == (!old(done) && !old(store.crashBeforeCommit))
      ensures store.Model() == if ok then Commit(old(store.Model()), old(domain), old(events)) else old(store.Model())
      ensures store.domainRows == old(store.domainRows) + (if ok then old(domain) else [])
      ensures |store.outbox| == |old(store.outbox)| + (if ok then |old(events)| else 0) && old(store.outbox) <= store.outbox
      ensures ok ==> forall k :: 0 <= k < |old(events)| ==>
        store.outbox[|old(store.outbox)| + k] == old(events)[k].(seqNo := old(store.lastSeq) + k + 1)
    {
      if done {
        return false;
      }
      if store.crashBeforeCommit {
        done := true;
        return false;
      }
      store.domainRows := store.domainRows + domain;
      ghost var rows := events;
      for i := 0 to |events|
        invariant |events| == |rows| && domain == old(domain)
        invariant forall k :: 0 <= k < i ==> events[k] == rows[k].(seqNo := old(store.lastSeq) + k + 1)
        invariant forall k :: i <= k < |rows| ==> events[k] == rows[k]
        invariant store.lastSeq == old(store.lastSeq) + i
        invariant store.outbox == old(store.outbox) && store.domainRows == old(store.domainRows) + domain
      {
        var s := store.NextSeq();
        events := events[i := events[i].(seqNo := s)];
      }
      assert events == Numbered(rows, old(store.lastSeq));
      store.outbox := store.outbox + events;
      done := true;
      return true;
    }
  }

  // ---------------------------------------------------------------------------
  // Relaying
  // ---------------------------------------------------------------------------

  /** Indices of the unacknowledged rows, in commit order. */
  function Scan(rows: seq<Row>): (scan: seq<nat>)
    ensures forall k :: 0 <= k < |scan| ==> scan[k] < |rows| && Unacked(rows[scan[k]])
    ensures forall k, m :: 0 <= k < m < |scan| ==> scan[k] < scan[m]
  {
    if rows == [] then []
    else
      var n := |rows| - 1;
      if Unacked(rows[n]) then Scan(rows[..n]) + [n] else Scan(rows[..n])
  }

  /** The outbox rows, what is on the bus, how many calls the bus has had and how many rows were acked. */
  datatype State = State(rows: seq<Row>, log: seq<Message>, calls: nat, acks: nat)

  predicate InRange(rows: seq<Row>, scan: seq<nat>) {
    forall k :: 0 <= k < |scan| ==> scan[k] < |rows|
  }

  function PublishRow(bus: Bus, max: nat, s: State, i: nat): (s': State)
    requires i < |s.rows|
    ensures |s'.rows| == |s.rows|
  {
    var row := s.rows[i].(attempts := s.rows[i].attempts + 1);
    if bus.accepts(s.calls, Envelope(row)) then
      State(s.rows[i := row.(published := true)], s.log + [Envelope(row)], s.calls + 1, s.acks + 1)
    else if row.attempts >= max then
      var letter := Letter(row);
      State(s.rows[i := row.(dead := true)],
            Put(bus, s.calls + 1, Put(bus, s.calls, s.log, Envelope(row)), letter), s.calls + 2, s.acks)
    else State(s.rows[i := row], Put(bus, s.calls, s.log, Envelope(row)), s.calls + 1, s.acks)
  }

  function PublishEach(bus: Bus, max: nat, s: State, scan: seq<nat>): (s': State)
    requires InRange(s.rows, scan)
    ensures |s'.rows| == |s.rows|
    decreases |scan|
  {
    if scan == [] then s else PublishEach(bus, max, PublishRow(bus, max, s, scan[0]), scan[1..])
  }

  function Envelopes(rows: seq<Row>, scan: seq<nat>): seq<Message>
    requires InRange(rows, scan)
  {
    seq(|scan|, k requires 0 <= k < |scan| => Envelope(rows[scan[k]]))
  }

  function Acked(r: Row): Row {
    r.(attempts := r.attempts + 1, published := true)
  }

  function AckAll(rows: seq<Row>, scan: seq<nat>): (rows': seq<Row>)
    requires InRange(rows, scan)
    ensures |rows'| == |rows|
    decreases |scan|
  {
    if scan == [] then rows else AckAll(rows[scan[0] := Acked(rows[scan[0]])], scan[1..])
  }

  /** One chunk: the whole batch at once, or row by row when the bus refuses it. */
  function PublishChunk(bus: Bus, max: nat, s: State, chunk: seq<nat>): (s': State)
    requires InRange(s.rows, chunk)
    ensures |s'.rows| == |s.rows|
  {
    var messages := Envelopes(s.rows, chunk);
    if bus.acceptsBatch(s.calls, messages) then State(AckAll(s.rows, chunk), s.log + messages, s.calls + 1, s.acks + |chunk|)
    else PublishEach(bus, max, s.(calls := s.calls + 1, log := s.log + Leaked(bus, s.calls, messages)), chunk)
  }

  function ChunkSize(scan: seq<nat>, size: nat): nat {
    if size < |scan| then size else |scan|
  }

  function PublishChunks(bus: Bus, max: nat, s: State, scan: seq<nat>, size: nat): (s': State)
    requires InRange(s.rows, scan) && size > 0
    ensures |s'.rows| == |s.rows|
    decreases |scan|
  {
    if scan == [] then s
    else
      var n := ChunkSize(scan, size);
      PublishChunks(bus, max, PublishChunk(bus, max, s, scan[..n]), scan[n..], size)
  }

  function PublishPending(bus: Bus, max: nat, s: State): (s': State)
    ensures |s'.rows| == |s.rows|
  {
    PublishEach(bus, max, s, Scan(s.rows))
  }

  function PublishPendingBatched(bus: Bus, max: nat, s: State, size: int): (s': State)
    ensures |s'.rows| == |s.rows|
  {
    if !bus.hasBatch || size <= 1 then PublishPending(bus, max, s)
    else PublishChunks(bus, max, s, Scan(s.rows), size)
  }

  class OutboxRelay {
    const store: InMemoryOutboxStore
    const bus: Bus
    const maxAttempts: nat
    var log: seq<Message>
    var calls: nat
    ghost var acks: nat

    constructor (store: InMemoryOutboxStore, bus: Bus, maxAttempts: nat)
      ensures this.store == store && this.bus == bus && this.maxAttempts == maxAttempts && log == [] && calls == acks == 0
    {
      this.store, this.bus, this.maxAttempts := store, bus, maxAttempts;
      log, calls, acks := [], 0, 0;
    }

    ghost function Model(): State
      reads this, store
    {
      State(store.outbox, log, calls, acks)
    }

    method Publish(m: Message) returns (ok: bool)
      modifies this`log, this`calls
      ensures ok == bus.accepts(old(calls), m) && calls == old(calls) + 1
      ensures log == Put(bus, old(calls), old(log), m)
    {
      if Lands(bus, calls, m) {
        log := log + [m];
      }
      ok := bus.accepts(calls, m);
      calls := calls + 1;
    }

    method DeadLetterRow(i: nat)
      requires i < |store.outbox|
      modifies this`log, this`calls, store`outbox
      ensures store.outbox == old(store.outbox)[i := old(store.outbox[i]).(dead := true)] && calls == old(calls) + 1
      ensures log == Put(bus, old(calls), old(log), Letter(old(store.outbox[i])))
    {
      store.outbox := store.outbox[i := store.outbox[i].(dead := true)];
      var alerted := Publish(Letter(store.outbox[i]));
    }

    method PublishOne(i: nat) returns (ok: bool)
      requires i < |store.outbox|
      modifies this, store`outbox
      ensures Model() == PublishRow(bus, maxAttempts, old(Model()), i)
      ensures acks == old(acks) + (if ok then 1 else 0)
      ensures ok == bus.accepts(old(calls), Envelope(old(store.outbox[i])))
      ensures !old(store.outbox[i]).published ==> store.outbox[i].published == ok
    {
      store.outbox := store.outbox[i := store.outbox[i].(attempts := store.outbox[i].attempts + 1)];
      ok := Publish(Envelope(store.outbox[i]));
      if !ok {
        if store.outbox[i].attempts >= maxAttempts {
          DeadLetterRow(i);
        }
        return;
      }
      store.outbox := store.outbox[i := store.outbox[i].(published := true)];
      acks := acks + 1;
    }

    method PublishIndividually(scan: seq<nat>) returns (count: nat)
      requires InRange(store.outbox, scan)
      modifies this, store`outbox
      ensures Model() == PublishEach(bus, maxAttempts, old(Model()), scan) && acks == old(acks) + count
    {
      count := 0;
      for k := 0 to |scan|
        invariant |store.outbox| == |old(store.outbox)| && acks == old(acks) + count
        invariant PublishEach(bus, maxAttempts, old(Model()), scan) == PublishEach(bus, maxAttempts, Model(), scan[k..])
      {
        hide PublishRow;
        assert scan[k..][0] == scan[k] && scan[k..][1..] == scan[k + 1..];
        var ok := PublishOne(scan[k]);
        if ok {
          count := count + 1;
        }
      }
    }

    method RunPublishPending() returns (count: nat)
      modifies this, store`outbox
      ensures Model() == PublishPending(bus, maxAttempts, old(Model())) && acks == old(acks) + count
    {
      var scan := store.UnackedRows();
      count := PublishIndividually(scan);
    }

    /** The batch call, and the acknowledgements when it succeeds. */
    method PublishOneChunk(chunk: seq<nat>) returns (count: nat)
      requires InRange(store.outbox, chunk)
      modifies this, store`outbox
      ensures Model() == PublishChunk(bus, maxAttempts, old(Model()), chunk) && acks == old(acks) + count
    {
      var messages := Envelopes(store.outbox, chunk);
      var ok := bus.acceptsBatch(calls, messages);
      calls := calls + 1;
      if !ok {
        log := log + Leaked(bus, calls - 1, messages);
        count := PublishIndividually(chunk);
        return;
      }
      log := log + messages;
      for k := 0 to |chunk|
        invariant |store.outbox| == |old(store.outbox)|
        invariant log == old(log) + messages && calls == old(calls) + 1 && acks == old(acks)
        invariant AckAll(old(store.outbox), chunk) == AckAll(store.outbox, chunk[k..])
      {
        assert chunk[k..][0] == chunk[k] && chunk[k..][1..] == chunk[k + 1..];
        store.outbox := store.outbox[chunk[k] := Acked(store.outbox[chunk[k]])];
      }
      acks := acks + |chunk|;
      count := |chunk|;
    }

    method PublishInChunks(scan: seq<nat>, size: nat) returns (count: nat)
      requires InRange(store.outbox, scan) && size > 0
      modifies this, store`outbox
      ensures Model() == PublishChunks(bus, maxAttempts, old(Model()), scan, size) && acks == old(acks) + count
    {
      hide PublishChunk;
      count := 0;
      var start := 0;
      while start < |scan|
        invariant 0 <= start <= |scan| && |store.outbox| == |old(store.outbox)| && acks == old(acks) + count
        invariant PublishChunks(bus, maxAttempts, old(Model()), scan, size) ==
          PublishChunks(bus, maxAttempts, Model(), scan[start..], size)
      {
        var end := start + ChunkSize(scan[start..], size);
        assert scan[start..][..end - start] == scan[start..end] && scan[start..][end - start..] == scan[end..];
        var n := PublishOneChunk(scan[start..end]);
        count := count + n;
        start := end;
      }
    }

    method RunPublishPendingBatched(size: int) returns (count: nat)
      modifies this, store`outbox
      ensures Model() == PublishPendingBatched(bus, maxAttempts, old(Model()), size) && acks == old(acks) + count
    {
      hide PublishChunks, PublishEach;
      var scan := store.UnackedRows();
      if !bus.hasBatch || size <= 1 {
        count := PublishIndividually(scan);
      } else {
        count := PublishInChunks(scan, size);
      }
    }
  }
}
