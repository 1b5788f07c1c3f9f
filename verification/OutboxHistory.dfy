/** What a run of the outbox leaves behind: every record that was committed and none that was not, and for
    each event the fate its bus gives it, whatever its chunk mates are. */
module OutboxHistory {
  import opened Sequences
  import opened OutboxRelay
  import opened OutboxRelayLaws

  // ---------------------------------------------------------------------------
  // Nothing is lost, nothing is half written
  // ---------------------------------------------------------------------------

  /** The domain records of the transactions that did not crash, in order. */
  function WrittenDomain(ops: seq<Op>): seq<string> {
    if ops == [] then []
    else (if ops[0].Write? && !ops[0].crash then ops[0].domain else []) + WrittenDomain(ops[1..])
  }

  /** Their events. */
  function WrittenEvents(ops: seq<Op>): seq<Row> {
    if ops == [] then []
    else (if ops[0].Write? && !ops[0].crash then ops[0].events else []) + WrittenEvents(ops[1..])
  }

  /** The same events under the same numbers, and then `events`, numbered upwards from `last + 1`. */
  ghost predicate Extends(rows: seq<Row>, rows': seq<Row>, events: seq<Row>, last: nat) {
    && |rows'| == |rows| + |events|
    && (forall i :: 0 <= i < |rows| ==> SameEvent(rows[i], rows'[i]))
    && (forall k :: 0 <= k < |events| ==>
          Envelope(rows'[|rows| + k]) == Envelope(events[k]) && rows'[|rows| + k].seqNo == last + k + 1)
  }

  lemma {:induction false} EachKeepsEvents(bus: Bus, max: nat, s: State, scan: seq<nat>)
    requires InRange(s.rows, scan)
    ensures Extends(s.rows, PublishEach(bus, max, s, scan).rows, [], 0)
    decreases |scan|
  {
    if scan != [] {
      TailAt(scan);
      var s1 := PublishRow(bus, max, s, scan[0]);
      assert Extends(s.rows, s1.rows, [], 0);
      hide PublishRow;
      EachKeepsEvents(bus, max, s1, scan[1..]);
      ExtendsBoth(s.rows, s1.rows, PublishEach(bus, max, s1, scan[1..]).rows, [], [], 0);
    }
  }

  lemma {:induction false} ExtendsBoth(a: seq<Row>, b: seq<Row>, c: seq<Row>, x: seq<Row>, y: seq<Row>, last: nat)
    requires Extends(a, b, x, last) && Extends(b, c, y, last + |x|)
    ensures Extends(a, c, x + y, last)
  {
    var z := x + y;
    forall k | 0 <= k < |z| ensures Envelope(c[|a| + k]) == Envelope(z[k]) && c[|a| + k].seqNo == last + k + 1 {
      if k < |x| {
        assert z[k] == x[k] && Envelope(b[|a| + k]) == Envelope(x[k]);
        assert SameEvent(b[|a| + k], c[|a| + k]);
      } else {
        var m := k - |x|;
        assert z[k] == y[m] && |b| + m == |a| + k;
        assert Envelope(c[|b| + m]) == Envelope(y[m]) && c[|b| + m].seqNo == last + |x| + m + 1;
      }
    }
    forall i | 0 <= i < |a| ensures SameEvent(a[i], c[i]) {
      assert SameEvent(a[i], b[i]) && SameEvent(b[i], c[i]);
    }
  }

  lemma {:induction false} AckKeepsEvents(rows: seq<Row>, chunk: seq<nat>)
    requires InRange(rows, chunk)
    ensures Extends(rows, AckAll(rows, chunk), [], 0)
    decreases |chunk|
  {
    if chunk != [] {
      TailAt(chunk);
      AckKeepsEvents(rows[chunk[0] := Acked(rows[chunk[0]])], chunk[1..]);
    }
  }

  lemma {:induction false} ChunksKeepEvents(bus: Bus, max: nat, s: State, scan: seq<nat>, size: nat)
    requires InRange(s.rows, scan) && size > 0
    ensures Extends(s.rows, PublishChunks(bus, max, s, scan, size).rows, [], 0)
    decreases |scan|
  {
    if scan != [] {
      var n := ChunkSize(scan, size);
      var s1 := PublishChunk(bus, max, s, scan[..n]);
      AckKeepsEvents(s.rows, scan[..n]);
      EachKeepsEvents(bus, max, s.(calls := s.calls + 1, log := s.log + Leaked(bus, s.calls, Envelopes(s.rows, scan[..n]))), scan[..n]);
      assert Extends(s.rows, s1.rows, [], 0);
      hide PublishChunk, Extends;
      ChunksKeepEvents(bus, max, s1, scan[n..], size);
      ExtendsBoth(s.rows, s1.rows, PublishChunks(bus, max, s1, scan[n..], size).rows, [], [], 0);
    }
  }

  lemma {:induction false} OpExtends(bus: Bus, max: nat, w: World, op: Op)
    ensures var w' := Do(bus, max, w, op);
      && w'.domain == w.domain + WrittenDomain([op])
      && Extends(w.state.rows, w'.state.rows, WrittenEvents([op]), w.lastSeq)
      && w'.lastSeq == w.lastSeq + |WrittenEvents([op])|
  {
    assert [op][1..] == [];
    var scan := Scan(w.state.rows);
    match op
    case Write(domain, events, crash) =>
    case ScanOneByOne => EachKeepsEvents(bus, max, w.state, scan);
    case ScanBatched(size) =>
      if bus.hasBatch && size > 1 {
        ChunksKeepEvents(bus, max, w.state, scan, size);
      } else {
        EachKeepsEvents(bus, max, w.state, scan);
      }
  }

  /** Over every run the domain records are those at the start and then those of exactly the transactions
      that did not crash, in order, and so are the events, each under the next number: a record and its
      event are committed together or not at all, and no scan loses, changes or reorders either. */
  lemma {:induction false} RunCommitsTogether(bus: Bus, max: nat, w: World, ops: seq<Op>)
    ensures var w' := DoAll(bus, max, w, ops);
      && w'.domain == w.domain + WrittenDomain(ops)
      && Extends(w.state.rows, w'.state.rows, WrittenEvents(ops), w.lastSeq)
      && w'.lastSeq == w.lastSeq + |WrittenEvents(ops)|
    decreases |ops|
  {
    hide Do, Extends;
    if ops == [] {
      NothingExtends(w);
    } else {
      var w1 := Do(bus, max, w, ops[0]);
      OpExtends(bus, max, w, ops[0]);
      WrittenStep(ops);
      hide WrittenDomain, WrittenEvents;
      RunCommitsTogether(bus, max, w1, ops[1..]);
      ExtendsBoth(w.state.rows, w1.state.rows, DoAll(bus, max, w1, ops[1..]).state.rows,
                  WrittenEvents([ops[0]]), WrittenEvents(ops[1..]), w.lastSeq);
    }
  }

  lemma {:induction false} NothingExtends(w: World)
    ensures Extends(w.state.rows, w.state.rows, [], w.lastSeq) && w.domain == w.domain + []
  {
  }

  lemma {:induction false} WrittenStep(ops: seq<Op>)
    requires ops != []
    ensures WrittenEvents(ops) == WrittenEvents([ops[0]]) + WrittenEvents(ops[1..])
    ensures WrittenDomain(ops) == WrittenDomain([ops[0]]) + WrittenDomain(ops[1..])
  {
    assert [ops[0]][1..] == [];
  }

  // ---------------------------------------------------------------------------
  // Every event gets its own fate
  // ---------------------------------------------------------------------------

  /** A batch goes through only if each of its events would. */
  ghost predicate BatchHonest(bus: Bus) {
    forall n: nat, ms: seq<Message> :: bus.acceptsBatch(n, ms) ==> AllAccepted(bus, ms)
  }

  /** One attempt: published exactly if the bus takes this event, dead exactly if that was its last chance. */
  predicate Fate(bus: Bus, max: nat, r: Row, r': Row) {
    var taken := bus.accepts(0, Envelope(r));
    && SameEvent(r, r') && r'.attempts == r.attempts + 1
    && r'.published == taken && r'.dead == (!taken && r'.attempts >= max)
  }

  lemma {:induction false} RowDecides(bus: Bus, max: nat, s: State, i: nat)
    requires Static(bus) && i < |s.rows| && Unacked(s.rows[i])
    ensures Fate(bus, max, s.rows[i], PublishRow(bus, max, s, i).rows[i])
    ensures forall k :: 0 <= k < |s.rows| && k != i ==> PublishRow(bus, max, s, i).rows[k] == s.rows[k]
  {
    assert bus.accepts(s.calls, Envelope(s.rows[i])) == bus.accepts(0, Envelope(s.rows[i]));
  }

  lemma {:induction false} EachDecides(bus: Bus, max: nat, s: State, scan: seq<nat>, i: nat)
    requires Static(bus) && Untouched(s.rows, scan) && i < |s.rows|
    ensures var r' := PublishEach(bus, max, s, scan).rows[i];
      if i in scan then Fate(bus, max, s.rows[i], r') else r' == s.rows[i]
    decreases |scan|
  {
    if scan != [] {
      TailAt(scan);
      var s1 := PublishRow(bus, max, s, scan[0]);
      RowDecides(bus, max, s, scan[0]);
      RowLeavesRest(bus, max, s, scan);
      assert i in scan <==> i == scan[0] || i in scan[1..];
      hide PublishRow, Untouched, Static, Fate;
      EachDecides(bus, max, s1, scan[1..], i);
    }
  }

  lemma {:induction false} ChunkDecides(bus: Bus, max: nat, s: State, chunk: seq<nat>, i: nat)
    requires Static(bus) && BatchHonest(bus) && Untouched(s.rows, chunk) && i < |s.rows|
    ensures var r' := PublishChunk(bus, max, s, chunk).rows[i];
      if i in chunk then Fate(bus, max, s.rows[i], r') else r' == s.rows[i]
  {
    var ms := Envelopes(s.rows, chunk);
    if bus.acceptsBatch(s.calls, ms) {
      AckAllDoes(s.rows, chunk, i);
      if i in chunk {
        var k :| 0 <= k < |chunk| && chunk[k] == i;
        assert bus.accepts(0, ms[k]);
      }
    } else {
      EachDecides(bus, max, s.(calls := s.calls + 1, log := s.log + Leaked(bus, s.calls, ms)), chunk, i);
    }
  }

  lemma {:induction false} ChunksDecide(bus: Bus, max: nat, s: State, scan: seq<nat>, size: nat, i: nat)
    requires Static(bus) && BatchHonest(bus) && Untouched(s.rows, scan) && DistinctEvents(s.rows) && i < |s.rows| && size > 0
    ensures var r' := PublishChunks(bus, max, s, scan, size).rows[i];
      if i in scan then Fate(bus, max, s.rows[i], r') else r' == s.rows[i]
    decreases |scan|
  {
    if scan != [] {
      var n := ChunkSize(scan, size);
      var a, b := scan[..n], scan[n..];
      assert scan == a + b;
      Membership(a, b, i);
      hide Untouched, Increasing, DistinctEvents, Static, BatchHonest, Fate;
      ChunkLeavesRest(bus, max, s, a, b);
      ChunkDecides(bus, max, s, a, i);
      PublishChunkDoes(bus, max, s, a, i);
      hide RowAfter, PublishChunk;
      ChunksDecide(bus, max, PublishChunk(bus, max, s, a), b, size, i);
    }
  }

  /** A scan of either kind gives every pending row its own fate and leaves the others alone: an event the
      bus refuses cannot hold up its chunk mates. */
  lemma {:induction false} ScanDecides(bus: Bus, max: nat, w: World, op: Op, i: nat)
    requires Static(bus) && BatchHonest(bus) && DistinctEvents(w.state.rows) && i < |w.state.rows| && !op.Write?
    ensures var r, rows' := w.state.rows[i], Do(bus, max, w, op).state.rows;
      && |rows'| == |w.state.rows|
      && if Unacked(r) then Fate(bus, max, r, rows'[i]) else rows'[i] == r
  {
    var scan := Scan(w.state.rows);
    ScanHas(w.state.rows, i);
    hide Scan, PublishEach, PublishChunks, Fate;
    if op.ScanOneByOne? || !bus.hasBatch || op.size <= 1 {
      EachDecides(bus, max, w.state, scan, i);
    } else {
      ChunksDecide(bus, max, w.state, scan, op.size, i);
    }
  }

  /** An event that the bus takes is published by the first scan after its commit; one that it refuses never
      is, and its row is dead from the scan on that makes its last attempt. */
  lemma {:induction false} VerdictDecides(bus: Bus, max: nat, w: World, ops: seq<Op>, i: nat)
    requires Static(bus) && BatchHonest(bus) && Inv(bus, w, max) && max > 0 && FreshWrites(bus, max, w, ops)
    requires i < |w.state.rows| && Unacked(w.state.rows[i])
    ensures var r, rows' := w.state.rows[i], DoAll(bus, max, w, ops).state.rows;
      && i < |rows'|
      && (if bus.accepts(0, Envelope(r)) then (rows'[i].published <==> Scans(ops) > 0) && !rows'[i].dead
          else !rows'[i].published && (rows'[i].dead <==> r.attempts + Scans(ops) >= max))
    decreases |ops|
  {
    if ops == [] {
      assert RowOk(w.state.rows[i], max);
    } else {
      var w1 := Do(bus, max, w, ops[0]);
      OpMoves(bus, max, w, ops[0], i);
      hide Inv, Do, Static, BatchHonest, Fate;
      ScansTry(bus, max, w1, ops[1..], i);
      if Unacked(w1.state.rows[i]) { VerdictDecides(bus, max, w1, ops[1..], i); }
    }
  }

  lemma {:induction false} OpMoves(bus: Bus, max: nat, w: World, op: Op, i: nat)
    requires Static(bus) && BatchHonest(bus) && Inv(bus, w, max) && max > 0 && (op.Write? ==> Fresh(w, op.events))
    requires i < |w.state.rows| && Unacked(w.state.rows[i])
    ensures var r, w1 := w.state.rows[i], Do(bus, max, w, op);
      var tried, taken := if op.Write? then 0 else 1, bus.accepts(0, Envelope(r));
      && Inv(bus, w1, max) && i < |w1.state.rows| && SameEvent(r, w1.state.rows[i])
      && w1.state.rows[i].attempts == r.attempts + tried
      && w1.state.rows[i].published == (taken && tried == 1)
      && w1.state.rows[i].dead == (!taken && tried == 1 && r.attempts + 1 >= max)
  {
    if op.Write? {
      WriteKeeps(bus, max, w, op);
      assert Do(bus, max, w, op).state.rows[i] == w.state.rows[i];
    } else {
      ScanKeeps(bus, max, w, op);
      ScanDecides(bus, max, w, op, i);
      hide Do, Static, BatchHonest;
    }
  }

  // ---------------------------------------------------------------------------
  // Dead rows are announced
  // ---------------------------------------------------------------------------

  /** Alerts get through, whatever happens to events. */
  ghost predicate Alarmed(bus: Bus) {
    forall n: nat, m: Message :: m.DeadLetter? ==> Lands(bus, n, m)
  }

  ghost predicate Announced(s: State) {
    forall i :: 0 <= i < |s.rows| && s.rows[i].dead ==> Letter(s.rows[i]) in s.log
  }

  lemma {:induction false} PutKeeps(bus: Bus, calls: nat, log: seq<Message>, x: Message)
    ensures log <= Put(bus, calls, log, x)
    ensures Lands(bus, calls, x) ==> x in Put(bus, calls, log, x)
  {
  }

  lemma {:induction false} RowAnnounces(bus: Bus, max: nat, s: State, k: nat)
    requires Alarmed(bus) && Announced(s) && k < |s.rows| && Unacked(s.rows[k])
    ensures Announced(PublishRow(bus, max, s, k))
  {
    var row := s.rows[k].(attempts := s.rows[k].attempts + 1);
    var log1 := Put(bus, s.calls, s.log, Envelope(row));
    PutKeeps(bus, s.calls, s.log, Envelope(row));
    PutKeeps(bus, s.calls + 1, log1, Letter(row));
    assert Lands(bus, s.calls + 1, Letter(row));
    assert Letter(row) == Letter(row.(dead := true));
    hide Put;
  }

  lemma {:induction false} EachAnnounces(bus: Bus, max: nat, s: State, scan: seq<nat>)
    requires Alarmed(bus) && Announced(s) && Untouched(s.rows, scan)
    ensures Announced(PublishEach(bus, max, s, scan))
    decreases |scan|
  {
    if scan != [] {
      RowLeavesRest(bus, max, s, scan);
      RowAnnounces(bus, max, s, scan[0]);
      hide PublishRow, Announced, Untouched, Alarmed;
      EachAnnounces(bus, max, PublishRow(bus, max, s, scan[0]), scan[1..]);
    }
  }

  lemma {:induction false} ChunkAnnounces(bus: Bus, max: nat, s: State, chunk: seq<nat>)
    requires Alarmed(bus) && Announced(s) && Untouched(s.rows, chunk)
    ensures Announced(PublishChunk(bus, max, s, chunk))
  {
    var ms := Envelopes(s.rows, chunk);
    if bus.acceptsBatch(s.calls, ms) {
      forall i: nat | i < |s.rows| ensures AckAll(s.rows, chunk)[i].dead ==> AckAll(s.rows, chunk)[i] == s.rows[i] {
        AckAllDoes(s.rows, chunk, i);
      }
    } else {
      EachAnnounces(bus, max, s.(calls := s.calls + 1, log := s.log + Leaked(bus, s.calls, ms)), chunk);
    }
  }

  lemma {:induction false} ChunksAnnounce(bus: Bus, max: nat, s: State, scan: seq<nat>, size: nat)
    requires Alarmed(bus) && Announced(s) && Untouched(s.rows, scan) && DistinctEvents(s.rows) && size > 0
    ensures Announced(PublishChunks(bus, max, s, scan, size))
    decreases |scan|
  {
    if scan != [] {
      var n := ChunkSize(scan, size);
      var a, b := scan[..n], scan[n..];
      assert scan == a + b;
      hide Untouched, DistinctEvents, Alarmed, Announced;
      ChunkLeavesRest(bus, max, s, a, b);
      ChunkAnnounces(bus, max, s, a);
      PublishChunkDoes(bus, max, s, a, scan[0]);
      hide PublishChunk;
      ChunksAnnounce(bus, max, PublishChunk(bus, max, s, a), b, size);
    }
  }

  /** When alerts get through, over every run a dead-letter message for each dead row is on the bus. */
  lemma {:induction false} RunAnnouncesDead(bus: Bus, max: nat, w: World, ops: seq<Op>)
    requires Alarmed(bus) && Inv(bus, w, max) && max > 0 && FreshWrites(bus, max, w, ops) && Announced(w.state)
    ensures Announced(DoAll(bus, max, w, ops).state)
    decreases |ops|
  {
    if ops != [] {
      if ops[0].Write? { WriteKeeps(bus, max, w, ops[0]); } else { ScanKeeps(bus, max, w, ops[0]); }
      OpAnnounces(bus, max, w, ops[0]);
      hide Inv, Do, Announced;
      RunAnnouncesDead(bus, max, Do(bus, max, w, ops[0]), ops[1..]);
    }
  }

  lemma {:induction false} OpAnnounces(bus: Bus, max: nat, w: World, op: Op)
    requires Alarmed(bus) && Announced(w.state) && DistinctEvents(w.state.rows) && (op.Write? ==> Fresh(w, op.events))
    ensures Announced(Do(bus, max, w, op).state)
  {
    var scan := Scan(w.state.rows);
    match op
    case Write(domain, events, crash) =>
      assert forall i :: 0 <= i < |events| ==> Numbered(events, w.lastSeq)[i].dead == events[i].dead;
    case ScanOneByOne => EachAnnounces(bus, max, w.state, scan);
    case ScanBatched(size) =>
      if bus.hasBatch && size > 1 {
        ChunksAnnounce(bus, max, w.state, scan, size);
      } else {
        EachAnnounces(bus, max, w.state, scan);
      }
  }

  // ---------------------------------------------------------------------------
  // What a scan counts
  // ---------------------------------------------------------------------------

  function PublishedCount(rows: seq<Row>): nat {
    if rows == [] then 0 else PublishedCount(rows[..|rows| - 1]) + (if rows[|rows| - 1].published then 1 else 0)
  }

  lemma {:induction false} CountUpdate(rows: seq<Row>, i: nat, r: Row)
    requires i < |rows|
    ensures PublishedCount(rows[i := r]) ==
      PublishedCount(rows) + (if r.published then 1 else 0) - (if rows[i].published then 1 else 0)
    decreases |rows|
  {
    var n := |rows| - 1;
    if i == n {
      assert rows[i := r][..n] == rows[..n];
    } else {
      assert rows[i := r][..n] == rows[..n][i := r];
      CountUpdate(rows[..n], i, r);
    }
  }

  /** Acknowledgements and published rows grow together. */
  ghost predicate Counts(s: State, s': State) {
    s'.acks - s.acks == PublishedCount(s'.rows) - PublishedCount(s.rows)
  }

  lemma {:induction false} EachCounts(bus: Bus, max: nat, s: State, scan: seq<nat>)
    requires Untouched(s.rows, scan)
    ensures Counts(s, PublishEach(bus, max, s, scan))
    decreases |scan|
  {
    if scan != [] {
      var s1 := PublishRow(bus, max, s, scan[0]);
      CountUpdate(s.rows, scan[0], s1.rows[scan[0]]);
      assert s1.rows == s.rows[scan[0] := s1.rows[scan[0]]];
      assert Counts(s, s1);
      RowLeavesRest(bus, max, s, scan);
      hide PublishRow, Untouched, PublishedCount;
      EachCounts(bus, max, s1, scan[1..]);
    }
  }

  lemma {:induction false} AckCounts(rows: seq<Row>, chunk: seq<nat>)
    requires Untouched(rows, chunk)
    ensures PublishedCount(AckAll(rows, chunk)) == PublishedCount(rows) + |chunk|
    decreases |chunk|
  {
    if chunk != [] {
      TailAt(chunk);
      CountUpdate(rows, chunk[0], Acked(rows[chunk[0]]));
      hide PublishedCount;
      AckCounts(rows[chunk[0] := Acked(rows[chunk[0]])], chunk[1..]);
    }
  }

  lemma {:induction false} ChunkCounts(bus: Bus, max: nat, s: State, chunk: seq<nat>)
    requires Untouched(s.rows, chunk)
    ensures Counts(s, PublishChunk(bus, max, s, chunk))
  {
    var ms := Envelopes(s.rows, chunk);
    if bus.acceptsBatch(s.calls, ms) {
      AckCounts(s.rows, chunk);
    } else {
      EachCounts(bus, max, s.(calls := s.calls + 1, log := s.log + Leaked(bus, s.calls, ms)), chunk);
    }
  }

  lemma {:induction false} CountsBoth(s: State, s1: State, s2: State)
    ensures Counts(s, s)
    ensures Counts(s, s1) && Counts(s1, s2) ==> Counts(s, s2)
  {
  }

  lemma {:induction false} ChunksCount(bus: Bus, max: nat, s: State, scan: seq<nat>, size: nat)
    requires Untouched(s.rows, scan) && DistinctEvents(s.rows) && size > 0
    ensures Counts(s, PublishChunks(bus, max, s, scan, size))
    decreases |scan|
  {
    assert scan != [] ==> scan[0] < |s.rows|;
    hide Untouched, DistinctEvents, Counts, PublishChunk, RowAfter;
    CountsBoth(s, s, s);
    if scan != [] {
      var n := ChunkSize(scan, size);
      var a, b := scan[..n], scan[n..];
      assert scan == a + b;
      ChunkLeavesRest(bus, max, s, a, b);
      ChunkCounts(bus, max, s, a);
      PublishChunkDoes(bus, max, s, a, scan[0]);
      var s1 := PublishChunk(bus, max, s, a);
      ChunksCount(bus, max, s1, b, size);
      CountsBoth(s, s1, PublishChunks(bus, max, s1, b, size));
    }
  }

  /** What a scan of either kind counts is the number of rows it has published. */
  lemma {:induction false} ScanCounts(bus: Bus, max: nat, s: State, size: int)
    requires DistinctEvents(s.rows)
    ensures Counts(s, PublishPending(bus, max, s)) && Counts(s, PublishPendingBatched(bus, max, s, size))
  {
    EachCounts(bus, max, s, Scan(s.rows));
    if bus.hasBatch && size > 1 { ChunksCount(bus, max, s, Scan(s.rows), size); }
  }

  // ---------------------------------------------------------------------------
  // What is on the bus
  // ---------------------------------------------------------------------------

  /** An event carries the row's topic, id, payload and idempotency key, and a letter the row's id, topic, key and
      attempts: two rows with one message agree on all of them, and no event is a letter. */
  lemma {:induction false} MessagesCarryRows(r: Row, s: Row)
    ensures Envelope(r) == Envelope(s) <==>
      r.topic == s.topic && r.eventId == s.eventId && r.payload == s.payload && r.idempotencyKey == s.idempotencyKey
    ensures Letter(r) == Letter(s) <==>
      r.topic == s.topic && r.eventId == s.eventId && r.attempts == s.attempts && r.idempotencyKey == s.idempotencyKey
    ensures Envelope(r) != Letter(s)
  {
  }

  /** A message of one of the rows: its event, or the letter of a dead one. */
  ghost predicate Ours(rows: seq<Row>, m: Message) {
    exists i :: 0 <= i < |rows| && (m == Envelope(rows[i]) || (rows[i].dead && m == Letter(rows[i])))
  }

  /** Nothing is on the bus but what was there at the start and messages of the rows. */
  ghost predicate OnlyOurs(start: seq<Message>, s: State) {
    forall m :: m in s.log ==> m in start || Ours(s.rows, m)
  }

  lemma {:induction false} OursStays(rows: seq<Row>, rows': seq<Row>, m: Message)
    requires Ours(rows, m) && |rows| <= |rows'|
    requires forall i :: 0 <= i < |rows| ==> SameEvent(rows[i], rows'[i]) && (rows[i].dead ==> rows'[i] == rows[i])
    ensures Ours(rows', m)
  {
    var i :| 0 <= i < |rows| && (m == Envelope(rows[i]) || (rows[i].dead && m == Letter(rows[i])));
    assert SameEvent(rows[i], rows'[i]);
  }

  lemma {:induction false} PutHas(bus: Bus, calls: nat, log: seq<Message>, x: Message)
    ensures forall m :: m in Put(bus, calls, log, x) ==> m in log || m == x
  {
  }

  lemma {:induction false} RowOnlyOurs(bus: Bus, max: nat, start: seq<Message>, s: State, k: nat)
    requires OnlyOurs(start, s) && k < |s.rows| && Unacked(s.rows[k])
    ensures OnlyOurs(start, PublishRow(bus, max, s, k))
  {
    var s' := PublishRow(bus, max, s, k);
    var row := s.rows[k].(attempts := s.rows[k].attempts + 1);
    var log1 := Put(bus, s.calls, s.log, Envelope(row));
    PutHas(bus, s.calls, s.log, Envelope(row));
    PutHas(bus, s.calls + 1, log1, Letter(row));
    assert Envelope(s'.rows[k]) == Envelope(row) && Ours(s'.rows, Envelope(row));
    assert s'.rows[k].dead ==> Letter(s'.rows[k]) == Letter(row) && Ours(s'.rows, Letter(row));
    forall m | m in s'.log ensures m in start || Ours(s'.rows, m) {
      if m in s.log && m !in start { OursStays(s.rows, s'.rows, m); }
    }
    hide Put, Ours;
  }

  lemma {:induction false} EachOnlyOurs(bus: Bus, max: nat, start: seq<Message>, s: State, scan: seq<nat>)
    requires OnlyOurs(start, s) && Untouched(s.rows, scan)
    ensures OnlyOurs(start, PublishEach(bus, max, s, scan))
    decreases |scan|
  {
    if scan != [] {
      RowLeavesRest(bus, max, s, scan);
      RowOnlyOurs(bus, max, start, s, scan[0]);
      hide PublishRow, OnlyOurs, Untouched;
      EachOnlyOurs(bus, max, start, PublishRow(bus, max, s, scan[0]), scan[1..]);
    }
  }

  /** The events of a chunk belong to its rows, before and after they are acknowledged. */
  lemma {:induction false} ChunkIsOurs(rows: seq<Row>, chunk: seq<nat>, m: Message)
    requires InRange(rows, chunk) && m in Envelopes(rows, chunk)
    ensures Ours(rows, m)
  {
    var k :| 0 <= k < |chunk| && Envelopes(rows, chunk)[k] == m;
    assert m == Envelope(rows[chunk[k]]);
  }

  lemma {:induction false} ChunkOnlyOurs(bus: Bus, max: nat, start: seq<Message>, s: State, chunk: seq<nat>)
    requires OnlyOurs(start, s) && Untouched(s.rows, chunk)
    ensures OnlyOurs(start, PublishChunk(bus, max, s, chunk))
  {
    var ms := Envelopes(s.rows, chunk);
    forall m | m in ms ensures Ours(s.rows, m) { ChunkIsOurs(s.rows, chunk, m); }
    if bus.acceptsBatch(s.calls, ms) {
      var rows' := AckAll(s.rows, chunk);
      forall i: nat | i < |s.rows| ensures SameEvent(s.rows[i], rows'[i]) && (s.rows[i].dead ==> rows'[i] == s.rows[i]) {
        AckAllDoes(s.rows, chunk, i);
      }
      forall m | Ours(s.rows, m) ensures Ours(rows', m) { OursStays(s.rows, rows', m); }
      hide Ours, Envelopes, AckAll;
    } else {
      assert forall m :: m in Leaked(bus, s.calls, ms) ==> m in ms;
      hide Ours, Envelopes, Leaked;
      EachOnlyOurs(bus, max, start, s.(calls := s.calls + 1, log := s.log + Leaked(bus, s.calls, ms)), chunk);
    }
  }

  lemma {:induction false} ChunksOnlyOurs(bus: Bus, max: nat, start: seq<Message>, s: State, scan: seq<nat>, size: nat)
    requires OnlyOurs(start, s) && Untouched(s.rows, scan) && DistinctEvents(s.rows) && size > 0
    ensures OnlyOurs(start, PublishChunks(bus, max, s, scan, size))
    decreases |scan|
  {
    assert scan != [] ==> scan[0] < |s.rows|;
    hide Untouched, DistinctEvents, OnlyOurs, PublishChunk, RowAfter;
    if scan != [] {
      var n := ChunkSize(scan, size);
      var a, b := scan[..n], scan[n..];
      assert scan == a + b;
      ChunkLeavesRest(bus, max, s, a, b);
      ChunkOnlyOurs(bus, max, start, s, a);
      PublishChunkDoes(bus, max, s, a, scan[0]);
      ChunksOnlyOurs(bus, max, start, PublishChunk(bus, max, s, a), b, size);
    }
  }

  lemma {:induction false} OpOnlyOurs(bus: Bus, max: nat, start: seq<Message>, w: World, op: Op)
    requires OnlyOurs(start, w.state) && DistinctEvents(w.state.rows)
    ensures OnlyOurs(start, Do(bus, max, w, op).state)
  {
    var scan := Scan(w.state.rows);
    match op
    case Write(domain, events, crash) =>
      forall m | Ours(w.state.rows, m) ensures Ours(Do(bus, max, w, op).state.rows, m) {
        OursStays(w.state.rows, Do(bus, max, w, op).state.rows, m);
      }
    case ScanOneByOne => EachOnlyOurs(bus, max, start, w.state, scan);
    case ScanBatched(size) =>
      if bus.hasBatch && size > 1 {
        ChunksOnlyOurs(bus, max, start, w.state, scan, size);
      } else {
        EachOnlyOurs(bus, max, start, w.state, scan);
      }
  }

  /** Over every run nothing comes onto the bus but events of committed rows and letters of dead ones. */
  lemma {:induction false} RunPublishesOnlyRows(bus: Bus, max: nat, start: seq<Message>, w: World, ops: seq<Op>)
    requires Inv(bus, w, max) && max > 0 && FreshWrites(bus, max, w, ops) && OnlyOurs(start, w.state)
    ensures OnlyOurs(start, DoAll(bus, max, w, ops).state)
    decreases |ops|
  {
    if ops != [] {
      if ops[0].Write? { WriteKeeps(bus, max, w, ops[0]); } else { ScanKeeps(bus, max, w, ops[0]); }
      OpOnlyOurs(bus, max, start, w, ops[0]);
      hide Inv, Do, OnlyOurs;
      RunPublishesOnlyRows(bus, max, start, Do(bus, max, w, ops[0]), ops[1..]);
    }
  }
}
