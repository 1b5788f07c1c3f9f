/** What the outbox relay guarantees: its batched path is its one-by-one path, every row ends up published
    once or dead-lettered, and a bounded number of scans settles every row. */
module OutboxRelayLaws {
  import opened Sequences
  import opened OutboxRelay

  predicate Increasing(scan: seq<nat>) {
    forall k, m :: 0 <= k < m < |scan| ==> scan[k] < scan[m]
  }

  // ---------------------------------------------------------------------------
  // Batched is one by one
  // ---------------------------------------------------------------------------

  /** The bus decides on the event alone. */
  ghost predicate Static(bus: Bus) {
    && (forall n: nat, m: Message :: bus.accepts(n, m) == bus.accepts(0, m))
    && (forall n: nat, m: Message :: bus.leaks(n, m) == bus.leaks(0, m))
  }

  predicate AllAccepted(bus: Bus, ms: seq<Message>) {
    forall k :: 0 <= k < |ms| ==> bus.accepts(0, ms[k])
  }

  /** A batch succeeds if and only if each of its events would, and leaves nothing when it does not. */
  ghost predicate BatchIsAll(bus: Bus) {
    && (forall n: nat, ms: seq<Message> :: bus.acceptsBatch(n, ms) <==> AllAccepted(bus, ms))
    && (forall n: nat, ms: seq<Message> :: bus.leaksBatch(n, ms) == 0)
  }

  /** The same rows, bus log and acknowledgements. */
  predicate Same(s: State, t: State) {
    s.rows == t.rows && s.log == t.log && s.acks == t.acks
  }

  lemma {:induction false} RowIgnoresCalls(bus: Bus, max: nat, s: State, t: State, i: nat)
    requires Static(bus) && Same(s, t) && i < |s.rows|
    ensures Same(PublishRow(bus, max, s, i), PublishRow(bus, max, t, i))
  {
    var row := s.rows[i].(attempts := s.rows[i].attempts + 1);
    assert bus.accepts(s.calls, Envelope(row)) == bus.accepts(t.calls, Envelope(row));
    assert bus.leaks(s.calls, Envelope(row)) == bus.leaks(t.calls, Envelope(row));
    assert bus.accepts(s.calls + 1, Letter(row)) == bus.accepts(t.calls + 1, Letter(row));
    assert bus.leaks(s.calls + 1, Letter(row)) == bus.leaks(t.calls + 1, Letter(row));
  }

  lemma {:induction false} EachIgnoresCalls(bus: Bus, max: nat, s: State, t: State, scan: seq<nat>)
    requires Static(bus) && Same(s, t) && InRange(s.rows, scan)
    ensures Same(PublishEach(bus, max, s, scan), PublishEach(bus, max, t, scan))
    decreases |scan|
  {
    if scan != [] {
      RowIgnoresCalls(bus, max, s, t, scan[0]);
      hide PublishRow, Static, Same;
      TailAt(scan);
      EachIgnoresCalls(bus, max, PublishRow(bus, max, s, scan[0]), PublishRow(bus, max, t, scan[0]), scan[1..]);
    }
  }

  lemma {:induction false} EachAppend(bus: Bus, max: nat, s: State, a: seq<nat>, b: seq<nat>)
    requires InRange(s.rows, a) && InRange(s.rows, b)
    ensures InRange(s.rows, a + b) && PublishEach(bus, max, s, a + b) == PublishEach(bus, max, PublishEach(bus, max, s, a), b)
    decreases |a|
  {
    hide PublishRow;
    if a == [] {
      assert a + b == b;
    } else {
      TailAt(a);
      assert (a + b)[0] == a[0] && (a + b)[1..] == a[1..] + b;
      EachAppend(bus, max, PublishRow(bus, max, s, a[0]), a[1..], b);
    }
  }

  /** Publishing an accepted chunk row by row does what the batch does. */
  lemma {:induction false} EachAccepted(bus: Bus, max: nat, s: State, chunk: seq<nat>)
    requires Static(bus) && InRange(s.rows, chunk) && AllAccepted(bus, Envelopes(s.rows, chunk))
    ensures var s' := PublishEach(bus, max, s, chunk);
      s'.rows == AckAll(s.rows, chunk) && s'.log == s.log + Envelopes(s.rows, chunk) && s'.acks == s.acks + |chunk|
    decreases |chunk|
  {
    if chunk != [] {
      TailAt(chunk);
      var all := Envelopes(s.rows, chunk);
      assert all[0] == Envelope(s.rows[chunk[0]]);
      assert bus.accepts(s.calls, all[0]) == bus.accepts(0, all[0]);
      var s1 := PublishRow(bus, max, s, chunk[0]);
      assert s1.rows == s.rows[chunk[0] := Acked(s.rows[chunk[0]])];
      assert Envelopes(s1.rows, chunk[1..]) == all[1..];
      assert all == [all[0]] + all[1..];
      hide PublishRow, Envelopes, Static;
      EachAccepted(bus, max, s1, chunk[1..]);
    }
  }

  lemma {:induction false} ChunkIsEach(bus: Bus, max: nat, s: State, chunk: seq<nat>)
    requires Static(bus) && BatchIsAll(bus) && InRange(s.rows, chunk)
    ensures Same(PublishChunk(bus, max, s, chunk), PublishEach(bus, max, s, chunk))
  {
    var ms := Envelopes(s.rows, chunk);
    assert bus.acceptsBatch(s.calls, ms) <==> AllAccepted(bus, ms);
    if AllAccepted(bus, ms) {
      EachAccepted(bus, max, s, chunk);
    } else {
      assert bus.leaksBatch(s.calls, ms) == 0 && s.log + Leaked(bus, s.calls, ms) == s.log;
      EachIgnoresCalls(bus, max, s.(calls := s.calls + 1), s, chunk);
    }
  }

  lemma {:induction false} ChunksAreEach(bus: Bus, max: nat, s: State, scan: seq<nat>, size: nat)
    requires Static(bus) && BatchIsAll(bus) && InRange(s.rows, scan) && size > 0
    ensures Same(PublishChunks(bus, max, s, scan, size), PublishEach(bus, max, s, scan))
    decreases |scan|
  {
    if scan != [] {
      var n := ChunkSize(scan, size);
      assert scan == scan[..n] + scan[n..];
      ChunkIsEach(bus, max, s, scan[..n]);
      EachAppend(bus, max, s, scan[..n], scan[n..]);
      var s1, t1 := PublishChunk(bus, max, s, scan[..n]), PublishEach(bus, max, s, scan[..n]);
      hide PublishChunk, Static, BatchIsAll, PublishEach;
      ChunksAreEach(bus, max, s1, scan[n..], size);
      EachIgnoresCalls(bus, max, s1, t1, scan[n..]);
    }
  }

  /** For every chunk size the batched flush leaves the rows, the bus and the count that the one-by-one
      flush leaves. */
  lemma {:induction false} BatchedIsOneByOne(bus: Bus, max: nat, s: State, size: int)
    requires Static(bus) && BatchIsAll(bus)
    ensures Same(PublishPendingBatched(bus, max, s, size), PublishPending(bus, max, s))
  {
    if bus.hasBatch && size > 1 {
      ChunksAreEach(bus, max, s, Scan(s.rows), size);
    }
  }

  // ---------------------------------------------------------------------------
  // What a scan does to one row
  // ---------------------------------------------------------------------------

  predicate SameEvent(r: Row, r': Row) {
    Envelope(r) == Envelope(r') && r.seqNo == r'.seqNo
  }

  /** One more attempt, after which the row is published, dead, or has attempts left. */
  predicate Tried(r: Row, r': Row, max: nat) {
    && SameEvent(r, r') && r'.attempts == r.attempts + 1
    && !(r'.published && r'.dead)
    && (r'.dead ==> r'.attempts >= max) && (Unacked(r') ==> r'.attempts < max)
  }

  function Copies(log: seq<Message>, m: Message): nat {
    if log == [] then 0 else Copies(log[..|log| - 1], m) + (if log[|log| - 1] == m then 1 else 0)
  }

  /** A call that raises has left nothing on the bus. */
  ghost predicate Clean(bus: Bus) {
    (forall n: nat, m: Message :: !bus.leaks(n, m)) && forall n: nat, ms: seq<Message> :: bus.leaksBatch(n, ms) == 0
  }

  /** How many copies of an event were added: at least one if it was published, at most `most`, and none
      for nothing when the bus is clean. */
  predicate Added(before: nat, after: nat, tried: bool, published: bool, most: nat, clean: bool) {
    var least := if tried && published then 1 else 0;
    before + least <= after <= before + (if tried then most else 0) && (clean ==> after == before + least)
  }

  /** What happened to row `i`: tried once, and on the bus at least once more if that succeeded; or left alone. */
  ghost predicate RowAfter(s: State, s': State, max: nat, i: nat, tried: bool, most: nat, clean: bool)
    requires i < |s.rows| == |s'.rows|
  {
    var r, r' := s.rows[i], s'.rows[i];
    && (if tried then Tried(r, r', max) else r' == r)
    && Added(Copies(s.log, Envelope(r)), Copies(s'.log, Envelope(r)), tried, r'.published, most, clean)
  }

  ghost predicate DistinctEvents(rows: seq<Row>) {
    forall i, k :: 0 <= i < k < |rows| ==> rows[i].eventId != rows[k].eventId
  }

  lemma {:induction false} CopiesAppend(log: seq<Message>, x: Message, m: Message)
    ensures Copies(log + [x], m) == Copies(log, m) + (if x == m then 1 else 0)
  {
    assert (log + [x])[..|log|] == log;
  }

  lemma {:induction false} PutCopies(bus: Bus, calls: nat, log: seq<Message>, x: Message, m: Message)
    ensures Copies(Put(bus, calls, log, x), m) == Copies(log, m) + (if x == m && Lands(bus, calls, x) then 1 else 0)
  {
    CopiesAppend(log, x, m);
  }

  lemma {:induction false} OtherEvent(rows: seq<Row>, i: nat, k: nat)
    requires i < |rows| && k < |rows| && i != k && DistinctEvents(rows)
    ensures rows[i].eventId != rows[k].eventId
  {
    assert i < k ==> rows[i].eventId != rows[k].eventId;
    assert k < i ==> rows[k].eventId != rows[i].eventId;
  }

  /** A publish attempt adds a copy of its own event if that lands, and of no other row's. */
  lemma {:induction false} PublishRowCopies(bus: Bus, max: nat, s: State, k: nat, i: nat)
    requires k < |s.rows| && i < |s.rows| && DistinctEvents(s.rows)
    ensures var lands := i == k && Lands(bus, s.calls, Envelope(s.rows[k]));
      Copies(PublishRow(bus, max, s, k).log, Envelope(s.rows[i])) == Copies(s.log, Envelope(s.rows[i])) + (if lands then 1 else 0)
  {
    var row := s.rows[k].(attempts := s.rows[k].attempts + 1);
    PutCopies(bus, s.calls, s.log, Envelope(row), Envelope(s.rows[i]));
    PutCopies(bus, s.calls + 1, Put(bus, s.calls, s.log, Envelope(row)), Letter(row), Envelope(s.rows[i]));
    assert bus.accepts(s.calls, Envelope(row)) ==> Put(bus, s.calls, s.log, Envelope(row)) == s.log + [Envelope(row)];
    if i != k { OtherEvent(s.rows, i, k); }
    hide Copies, Put, DistinctEvents;
  }

  lemma {:induction false} PublishRowDoes(bus: Bus, max: nat, s: State, k: nat, i: nat)
    requires k < |s.rows| && i < |s.rows| && Unacked(s.rows[k]) && DistinctEvents(s.rows)
    ensures RowAfter(s, PublishRow(bus, max, s, k), max, i, i == k, 1, Clean(bus))
    ensures DistinctEvents(PublishRow(bus, max, s, k).rows)
  {
    PublishRowCopies(bus, max, s, k, i);
    assert Clean(bus) ==> !bus.leaks(s.calls, Envelope(s.rows[k]));
    hide Copies, Put, Clean;
  }

  /** The rows a scan still has to try. */
  ghost predicate Untouched(rows: seq<Row>, scan: seq<nat>) {
    InRange(rows, scan) && Increasing(scan) && forall k :: 0 <= k < |scan| ==> Unacked(rows[scan[k]])
  }

  lemma {:induction false} AfterBoth(s: State, s1: State, s2: State, max: nat, i: nat, first: bool, second: bool, most: nat, clean: bool)
    requires i < |s.rows| == |s1.rows| == |s2.rows| && !(first && second)
    requires RowAfter(s, s1, max, i, first, most, clean) && RowAfter(s1, s2, max, i, second, most, clean)
    ensures RowAfter(s, s2, max, i, first || second, most, clean)
  {
    hide Copies;
  }

  lemma {:induction false} PublishEachDoes(bus: Bus, max: nat, s: State, scan: seq<nat>, i: nat)
    requires Untouched(s.rows, scan) && DistinctEvents(s.rows) && i < |s.rows|
    ensures RowAfter(s, PublishEach(bus, max, s, scan), max, i, i in scan, 1, Clean(bus))
    ensures DistinctEvents(PublishEach(bus, max, s, scan).rows)
    decreases |scan|
  {
    if scan != [] {
      TailAt(scan);
      var s1 := PublishRow(bus, max, s, scan[0]);
      PublishRowDoes(bus, max, s, scan[0], i);
      RowLeavesRest(bus, max, s, scan);
      assert i in scan <==> i == scan[0] || i in scan[1..];
      assert i in scan[1..] ==> i != scan[0];
      hide PublishRow, RowAfter, DistinctEvents, Untouched, Clean;
      PublishEachDoes(bus, max, s1, scan[1..], i);
      AfterBoth(s, s1, PublishEach(bus, max, s1, scan[1..]), max, i, i == scan[0], i in scan[1..], 1, Clean(bus));
    }
  }

  lemma {:induction false} RowLeavesRest(bus: Bus, max: nat, s: State, scan: seq<nat>)
    requires scan != [] && Untouched(s.rows, scan)
    ensures Untouched(PublishRow(bus, max, s, scan[0]).rows, scan[1..])
    ensures scan[0] !in scan[1..]
  {
    TailAt(scan);
    var s1 := PublishRow(bus, max, s, scan[0]);
    assert forall k :: 0 < k < |scan| ==> s1.rows[scan[k]] == s.rows[scan[k]];
  }

  lemma {:induction false} AckAllDoes(rows: seq<Row>, chunk: seq<nat>, i: nat)
    requires Untouched(rows, chunk) && i < |rows|
    ensures AckAll(rows, chunk)[i] == if i in chunk then Acked(rows[i]) else rows[i]
    decreases |chunk|
  {
    if chunk != [] {
      TailAt(chunk);
      var rows1 := rows[chunk[0] := Acked(rows[chunk[0]])];
      assert i in chunk <==> i == chunk[0] || i in chunk[1..];
      AckAllDoes(rows1, chunk[1..], i);
    }
  }

  lemma {:induction false} EnvelopeCopies(log: seq<Message>, rows: seq<Row>, chunk: seq<nat>, i: nat)
    requires Untouched(rows, chunk) && DistinctEvents(rows) && i < |rows|
    ensures Copies(log + Envelopes(rows, chunk), Envelope(rows[i])) ==
      Copies(log, Envelope(rows[i])) + (if i in chunk then 1 else 0)
    decreases |chunk|
  {
    if chunk == [] {
      assert log + Envelopes(rows, chunk) == log;
    } else {
      var n := |chunk| - 1;
      var before, x := Envelopes(rows, chunk[..n]), Envelope(rows[chunk[n]]);
      assert log + Envelopes(rows, chunk) == (log + before) + [x];
      CopiesAppend(log + before, x, Envelope(rows[i]));
      EnvelopeCopies(log, rows, chunk[..n], i);
      assert chunk == chunk[..n] + [chunk[n]];
      assert i in chunk <==> i in chunk[..n] || i == chunk[n];
      assert i in chunk[..n] ==> i != chunk[n];
      assert i != chunk[n] ==> Envelope(rows[i]) != x by {
        assert i < chunk[n] ==> rows[i].eventId != rows[chunk[n]].eventId;
        assert chunk[n] < i ==> rows[chunk[n]].eventId != rows[i].eventId;
      }
    }
  }

  /** What a refused batch leaves adds at most one copy of an event of the chunk. */
  lemma {:induction false} LeakedCopies(bus: Bus, calls: nat, log: seq<Message>, rows: seq<Row>, chunk: seq<nat>, i: nat)
    requires Untouched(rows, chunk) && DistinctEvents(rows) && i < |rows|
    ensures var log' := log + Leaked(bus, calls, Envelopes(rows, chunk));
      Added(Copies(log, Envelope(rows[i])), Copies(log', Envelope(rows[i])), i in chunk, false, 1, Clean(bus))
  {
    var ms := Envelopes(rows, chunk);
    var n := if bus.leaksBatch(calls, ms) < |ms| then bus.leaksBatch(calls, ms) else |ms|;
    assert Leaked(bus, calls, ms) == Envelopes(rows, chunk[..n]);
    assert forall k :: 0 <= k < n ==> chunk[..n][k] == chunk[k];
    EnvelopeCopies(log, rows, chunk[..n], i);
    assert Clean(bus) ==> n == 0;
    hide Copies, Envelopes, DistinctEvents, Untouched;
  }

  lemma {:induction false} PublishChunkDoes(bus: Bus, max: nat, s: State, chunk: seq<nat>, i: nat)
    requires Untouched(s.rows, chunk) && DistinctEvents(s.rows) && i < |s.rows|
    ensures RowAfter(s, PublishChunk(bus, max, s, chunk), max, i, i in chunk, 2, Clean(bus))
    ensures DistinctEvents(PublishChunk(bus, max, s, chunk).rows)
  {
    var ms := Envelopes(s.rows, chunk);
    if bus.acceptsBatch(s.calls, ms) {
      forall k: nat | k < |s.rows| ensures AckAll(s.rows, chunk)[k].eventId == s.rows[k].eventId {
        AckAllDoes(s.rows, chunk, k);
      }
      AckAllDoes(s.rows, chunk, i);
      EnvelopeCopies(s.log, s.rows, chunk, i);
      hide AckAll, Copies, Envelopes;
    } else {
      LeakedCopies(bus, s.calls, s.log, s.rows, chunk, i);
      PublishEachDoes(bus, max, s.(calls := s.calls + 1, log := s.log + Leaked(bus, s.calls, ms)), chunk, i);
      hide PublishEach, Copies, Clean, Leaked, Envelopes, DistinctEvents, Untouched, Tried;
    }
  }

  lemma {:induction false} PublishChunksDo(bus: Bus, max: nat, s: State, scan: seq<nat>, size: nat, i: nat)
    requires Untouched(s.rows, scan) && DistinctEvents(s.rows) && i < |s.rows| && size > 0
    ensures RowAfter(s, PublishChunks(bus, max, s, scan, size), max, i, i in scan, 2, Clean(bus))
    ensures DistinctEvents(PublishChunks(bus, max, s, scan, size).rows)
    decreases |scan|
  {
    if scan != [] {
      var n := ChunkSize(scan, size);
      var a, b := scan[..n], scan[n..];
      assert scan == a + b;
      Membership(a, b, i);
      hide Copies, DistinctEvents, Untouched, Tried, Increasing, SameEvent, Clean;
      ChunkLeavesRest(bus, max, s, a, b);
      PublishChunkDoes(bus, max, s, a, i);
      var s1 := PublishChunk(bus, max, s, a);
      hide PublishChunk, RowAfter;
      PublishChunksDo(bus, max, s1, b, size, i);
      AfterBoth(s, s1, PublishChunks(bus, max, s1, b, size), max, i, i in a, i in b, 2, Clean(bus));
    }
  }

  lemma {:induction false} Membership(a: seq<nat>, b: seq<nat>, i: nat)
    requires Increasing(a + b)
    ensures i in a + b <==> i in a || i in b
    ensures !(i in a && i in b)
  {
    var all := a + b;
    assert forall k :: 0 <= k < |a| ==> a[k] == all[k];
    assert forall m :: 0 <= m < |b| ==> b[m] == all[|a| + m];
    assert forall k, m :: 0 <= k < |a| && 0 <= m < |b| ==> a[k] < b[m];
  }

  lemma {:induction false} ChunkLeavesRest(bus: Bus, max: nat, s: State, a: seq<nat>, b: seq<nat>)
    requires Untouched(s.rows, a + b) && DistinctEvents(s.rows)
    ensures Untouched(s.rows, a) && Untouched(PublishChunk(bus, max, s, a).rows, b)
  {
    var all := a + b;
    assert forall k :: 0 <= k < |a| ==> a[k] == all[k];
    assert forall k :: 0 <= k < |b| ==> b[k] == all[|a| + k];
    assert Untouched(s.rows, a);
    var s1 := PublishChunk(bus, max, s, a);
    forall k | 0 <= k < |b| ensures s1.rows[b[k]] == s.rows[b[k]] {
      PublishChunkDoes(bus, max, s, a, b[k]);
      assert b[k] !in a;
    }
  }

  lemma {:induction false} ScanHas(rows: seq<Row>, i: nat)
    requires i < |rows|
    ensures i in Scan(rows) <==> Unacked(rows[i])
    decreases |rows|
  {
    var n := |rows| - 1;
    if i < n { ScanHas(rows[..n], i); }
  }

  // ---------------------------------------------------------------------------
  // Runs
  // ---------------------------------------------------------------------------

  datatype Op =
    | Write(domain: seq<string>, events: seq<Row>, crash: bool)
    | ScanOneByOne
    | ScanBatched(size: int)

  datatype World = World(domain: seq<string>, lastSeq: nat, state: State)

  function Do(bus: Bus, max: nat, w: World, op: Op): World {
    match op
    case Write(domain, events, crash) =>
      if crash then w
      else
        var t := Commit(Tables(w.domain, w.state.rows, w.lastSeq), domain, events);
        World(t.domain, t.lastSeq, w.state.(rows := t.outbox))
    case ScanOneByOne => w.(state := PublishPending(bus, max, w.state))
    case ScanBatched(size) => w.(state := PublishPendingBatched(bus, max, w.state, size))
  }

  function DoAll(bus: Bus, max: nat, w: World, ops: seq<Op>): World
    decreases |ops|
  {
    if ops == [] then w else DoAll(bus, max, Do(bus, max, w, ops[0]), ops[1..])
  }

  /** Fresh rows: never tried, with event ids of their own that nothing on the bus carries. */
  ghost predicate Fresh(w: World, events: seq<Row>) {
    && (forall i :: 0 <= i < |events| ==> Unacked(events[i]) && events[i].attempts == 0 && Copies(w.state.log, Envelope(events[i])) == 0)
    && DistinctEvents(w.state.rows + events)
  }

  ghost predicate FreshWrites(bus: Bus, max: nat, w: World, ops: seq<Op>)
    decreases |ops|
  {
    ops == [] ||
    ((ops[0].Write? ==> Fresh(w, ops[0].events)) && FreshWrites(bus, max, Do(bus, max, w, ops[0]), ops[1..]))
  }

  /** A row is pending with attempts left, published, or dead after the last attempt. */
  predicate RowOk(r: Row, max: nat) {
    r.attempts <= max && !(r.published && r.dead) && (Unacked(r) ==> r.attempts < max) && (r.dead ==> r.attempts == max)
  }

  /** Row `i` is on the bus at least once if it is published, and at most twice for each attempt at it; on
      a clean bus once if it is published and not at all otherwise. */
  ghost predicate OnBus(s: State, i: nat, clean: bool)
    requires i < |s.rows|
  {
    var r, n := s.rows[i], Copies(s.log, Envelope(s.rows[i]));
    var least := if r.published then 1 else 0;
    least <= n <= 2 * r.attempts && (clean ==> n == least)
  }

  ghost predicate Ordered(rows: seq<Row>, lastSeq: nat) {
    && (forall i, k :: 0 <= i < k < |rows| ==> rows[i].seqNo < rows[k].seqNo)
    && (forall i :: 0 <= i < |rows| ==> rows[i].seqNo <= lastSeq)
  }

  ghost predicate Inv(bus: Bus, w: World, max: nat) {
    && DistinctEvents(w.state.rows) && Ordered(w.state.rows, w.lastSeq)
    && forall i :: 0 <= i < |w.state.rows| ==> RowOk(w.state.rows[i], max) && OnBus(w.state, i, Clean(bus))
  }

  lemma {:induction false} ScanDoes(bus: Bus, max: nat, w: World, op: Op, i: nat)
    requires DistinctEvents(w.state.rows) && i < |w.state.rows| && !op.Write?
    ensures RowAfter(w.state, Do(bus, max, w, op).state, max, i, Unacked(w.state.rows[i]), 2, Clean(bus))
    ensures DistinctEvents(Do(bus, max, w, op).state.rows)
  {
    var scan := Scan(w.state.rows);
    ScanHas(w.state.rows, i);
    hide Scan, PublishEach, PublishChunks, Copies;
    if op.ScanOneByOne? || !bus.hasBatch || op.size <= 1 {
      PublishEachDoes(bus, max, w.state, scan, i);
    } else {
      PublishChunksDo(bus, max, w.state, scan, op.size, i);
    }
  }

  lemma {:induction false} ScanKeeps(bus: Bus, max: nat, w: World, op: Op)
    requires Inv(bus, w, max) && !op.Write?
    ensures Inv(bus, Do(bus, max, w, op), max)
  {
    var w' := Do(bus, max, w, op);
    forall i | 0 <= i < |w.state.rows|
      ensures RowAfter(w.state, w'.state, max, i, Unacked(w.state.rows[i]), 2, Clean(bus)) && DistinctEvents(w'.state.rows)
    {
      ScanDoes(bus, max, w, op, i);
    }
    assert w'.lastSeq == w.lastSeq && |w'.state.rows| == |w.state.rows|;
    hide Do, Copies, DistinctEvents;
    assert DistinctEvents(w'.state.rows) by {
      if w.state.rows == [] { assert w'.state.rows == w.state.rows; }
      else { assert RowAfter(w.state, w'.state, max, 0, Unacked(w.state.rows[0]), 2, Clean(bus)); }
    }
    assert forall i :: 0 <= i < |w.state.rows| ==> SameEvent(w.state.rows[i], w'.state.rows[i]);
    assert forall i :: 0 <= i < |w.state.rows| ==> RowOk(w'.state.rows[i], max) && OnBus(w'.state, i, Clean(bus));
  }

  lemma {:induction false} WriteKeeps(bus: Bus, max: nat, w: World, op: Op)
    requires Inv(bus, w, max) && max > 0 && op.Write? && Fresh(w, op.events)
    ensures Inv(bus, Do(bus, max, w, op), max)
  {
    hide Copies;
    if !op.crash {
      var rows, n, rows' := w.state.rows, |w.state.rows|, Do(bus, max, w, op).state.rows;
      assert forall i :: 0 <= i < n ==> rows'[i] == rows[i];
      assert forall i :: n <= i < |rows'| ==>
        rows'[i] == op.events[i - n].(seqNo := w.lastSeq + i - n + 1) && Envelope(rows'[i]) == Envelope(op.events[i - n]);
      var all := rows + op.events;
      assert forall i :: 0 <= i < |rows'| ==> rows'[i].eventId == all[i].eventId;
      assert DistinctEvents(rows') by { hide Fresh; assert DistinctEvents(all); }
      hide Commit, DistinctEvents;
    }
  }

  /** Over every run of commits, crashed commits and scans of either kind: rows partition into pending,
      published and dead, no row is tried more than the maximum, each event is on the bus at least once if
      its row is published and at most twice an attempt, and commit order is strictly increasing. When a
      call that raises leaves nothing on the bus, each event is there once if published and not at all
      otherwise. */
  lemma {:induction false} RunKeepsOutbox(bus: Bus, max: nat, w: World, ops: seq<Op>)
    requires Inv(bus, w, max) && max > 0 && FreshWrites(bus, max, w, ops)
    ensures Inv(bus, DoAll(bus, max, w, ops), max)
    decreases |ops|
  {
    hide Inv, Do;
    if ops != [] {
      if ops[0].Write? { WriteKeeps(bus, max, w, ops[0]); } else { ScanKeeps(bus, max, w, ops[0]); }
      RunKeepsOutbox(bus, max, Do(bus, max, w, ops[0]), ops[1..]);
    }
  }

  function Scans(ops: seq<Op>): nat {
    if ops == [] then 0 else (if ops[0].Write? then 0 else 1) + Scans(ops[1..])
  }

  /** Each scan tries each pending row once. */
  lemma {:induction false} ScansTry(bus: Bus, max: nat, w: World, ops: seq<Op>, i: nat)
    requires Inv(bus, w, max) && max > 0 && FreshWrites(bus, max, w, ops) && i < |w.state.rows|
    ensures var w' := DoAll(bus, max, w, ops);
      i < |w'.state.rows| && SameEvent(w.state.rows[i], w'.state.rows[i])
      && (Unacked(w'.state.rows[i]) ==> w'.state.rows[i].attempts == w.state.rows[i].attempts + Scans(ops))
      && (!Unacked(w.state.rows[i]) ==> w'.state.rows[i] == w.state.rows[i])
    decreases |ops|
  {
    if ops != [] {
      var w1 := Do(bus, max, w, ops[0]);
      if ops[0].Write? {
        WriteKeeps(bus, max, w, ops[0]);
        assert i < |w1.state.rows| && w1.state.rows[i] == w.state.rows[i];
      } else {
        ScanKeeps(bus, max, w, ops[0]);
        ScanDoes(bus, max, w, ops[0], i);
      }
      hide Inv, Do, Copies;
      ScansTry(bus, max, w1, ops[1..], i);
    }
  }

  /** However the bus behaves, a row committed before `max` scans is published or dead after them. */
  lemma {:induction false} MaxScansSettle(bus: Bus, max: nat, w: World, ops: seq<Op>, i: nat)
    requires Inv(bus, w, max) && max > 0 && FreshWrites(bus, max, w, ops) && i < |w.state.rows| && Scans(ops) >= max
    ensures i < |DoAll(bus, max, w, ops).state.rows| && !Unacked(DoAll(bus, max, w, ops).state.rows[i])
  {
    ScansTry(bus, max, w, ops, i);
    RunKeepsOutbox(bus, max, w, ops);
  }

  // ---------------------------------------------------------------------------
  // One commit for many events
  // ---------------------------------------------------------------------------

  /** One transaction for all entries leaves the tables that a transaction an entry leaves. */
  lemma {:induction false} BatchWriteIsWrites(t: Tables, domain: seq<string>, events: seq<Row>)
    requires |domain| == |events|
    ensures Commit(t, domain, events) == CommitEach(t, domain, events)
    decreases |events|
  {
    if events == [] {
      assert Numbered(events, t.lastSeq) == [] && t.outbox + [] == t.outbox && t.domain + domain == t.domain;
    } else {
      var t1 := Commit(t, domain[..1], events[..1]);
      BatchWriteIsWrites(t1, domain[1..], events[1..]);
      assert Numbered(events, t.lastSeq) == Numbered(events[..1], t.lastSeq) + Numbered(events[1..], t.lastSeq + 1);
      assert domain == domain[..1] + domain[1..];
      assert t.domain + domain == t1.domain + domain[1..];
      assert t.outbox + Numbered(events, t.lastSeq) == t1.outbox + Numbered(events[1..], t.lastSeq + 1);
    }
  }

  function CommitEach(t: Tables, domain: seq<string>, events: seq<Row>): Tables
    requires |domain| == |events|
    decreases |events|
  {
    if events == [] then t else CommitEach(Commit(t, domain[..1], events[..1]), domain[1..], events[1..])
  }
}
