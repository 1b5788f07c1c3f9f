/** Nothing is marked synced before it is on the bus: for one sync, and over every history of a device
    whose engine is stopped and restarted between, or in the middle of, its syncs. */
module EdgePublish {
  import opened Sequences
  import opened EdgeSync
  import opened EdgeProtocol
  import opened EdgeEngine
  import opened EdgeDrain

  // ---------------------------------------------------------------------------
  // One sync
  // ---------------------------------------------------------------------------

  /** Every synced record of a mapped kind is on the bus, on its channel. */
  ghost predicate PublishedFirst(channels: map<Kind, string>, rows: seq<Row>, log: seq<Message>) {
    forall i :: 0 <= i < |rows| && rows[i].synced && rows[i].record.payload.kind in channels ==>
      OnBus(channels, rows[i].record, log)
  }

  predicate OnBus(channels: map<Kind, string>, r: SignedRecord, log: seq<Message>) {
    r.payload.kind in channels && Message(channels[r.payload.kind], r.payload, r.sequence) in log
  }

  /** What `Publish` put on the bus: nothing is taken off, and on success every mapped record is there. */
  lemma {:induction false} PublishPuts(c: Config, index: map<int, SignedRecord>, acked: seq<int>, log: seq<Message>, publishes: nat)
    requires forall q :: q in index ==> index[q].sequence == q
    ensures var p := Publish(c, index, acked, log, publishes);
      && (forall x :: x in log ==> x in p.log)
      && (p.ok ==> forall i :: 0 <= i < |acked| ==>
            acked[i] in index && (index[acked[i]].payload.kind in c.channels ==> OnBus(c.channels, index[acked[i]], p.log)))
    decreases |acked|
  {
    if acked != [] && acked[0] in index {
      TailAt(acked);
      var payload := index[acked[0]].payload;
      if payload.kind in c.channels && c.busUp(publishes) {
        var message := Message(c.channels[payload.kind], payload, acked[0]);
        assert message in log + [message];
        PublishPuts(c, index, acked[1..], log + [message], publishes + 1);
      } else if payload.kind !in c.channels {
        PublishPuts(c, index, acked[1..], log, publishes);
      }
    }
  }

  /** Marking changes the status of the acknowledged rows only. */
  lemma {:induction false} MarkedOnly(rows: seq<Row>, acked: seq<int>)
    ensures var rows' := MarkSynced(rows, acked);
      |rows'| == |rows| && forall i :: 0 <= i < |rows| ==>
        rows'[i].record == rows[i].record && (rows'[i].synced <==> rows[i].synced || rows[i].record.sequence in acked)
    decreases |acked|
  {
    if acked != [] {
      var rows1 := MarkOne(rows, acked[0]);
      MarkedOnly(rows1, acked[1..]);
      assert acked == [acked[0]] + acked[1..];
    }
  }

  /** The rows `sync_once` newly marks carry records of its batch. */
  lemma {:induction false} AckedIsPublished(c: Config, rows: seq<Row>, records: seq<SignedRecord>, acked: seq<int>, m: nat, log: seq<Message>, publishes: nat, i: nat)
    requires Numbered(rows, c.device) && Consecutive(records, rows, m)
    requires |acked| == |records| && forall k :: 0 <= k < |acked| ==> acked[k] == m + k + 1
    requires i < |rows| && rows[i].record.sequence in acked && rows[i].record.payload.kind in c.channels
    requires Publish(c, BySequence(records), acked, log, publishes).ok
    ensures OnBus(c.channels, rows[i].record, Publish(c, BySequence(records), acked, log, publishes).log)
  {
    assert forall k :: 0 <= k < |records| ==> records[k].sequence == m + k + 1;
    IndexHas(records, m);
    PublishPuts(c, BySequence(records), acked, log, publishes);
    var k :| 0 <= k < |acked| && acked[k] == rows[i].record.sequence;
    assert records[k] == rows[m + k].record && i == m + k;
    hide BySequence, Publish, Numbered, Consecutive, OnBus;
    assert BySequence(records)[acked[k]] == records[k];
  }

  lemma {:induction false} LogGrows(c: Config, records: seq<SignedRecord>, acked: seq<int>, m: nat, log: seq<Message>, publishes: nat, r: SignedRecord)
    requires forall k :: 0 <= k < |records| ==> records[k].sequence == m + k + 1
    requires OnBus(c.channels, r, log)
    ensures OnBus(c.channels, r, Publish(c, BySequence(records), acked, log, publishes).log)
  {
    IndexHas(records, m);
    PublishPuts(c, BySequence(records), acked, log, publishes);
    hide BySequence, Publish;
  }

  lemma {:induction false} AfterPushPublishesFirst(c: Config, w: World, records: seq<SignedRecord>, acks: seq<Ack>, m: nat)
    requires Numbered(w.rows, c.device) && Consecutive(records, w.rows, m) && AcksFrom(acks, m, c.device) && |acks| == |records|
    requires forall k :: 0 <= k < |records| ==> records[k].sequence == m + k + 1
    requires c.bus && PublishedFirst(c.channels, w.rows, w.log)
    ensures var r := AfterPush(c, w, records, acks).world; PublishedFirst(c.channels, r.rows, r.log)
  {
    var rows, acked := w.rows, AckedSequences(acks);
    AckedAll(acks, m, c.device);
    MarkedOnly(rows, acked);
    hide AckedSequences, AcksFrom;
    var r := AfterPush(c, w, records, acks).world;
    if acked != [] {
      var p := Publish(c, BySequence(records), acked, w.log, w.publishes);
      assert r.log == p.log && r.rows == (if p.ok then MarkSynced(rows, acked) else rows);
      hide AfterPush, Publish, MarkSynced, Numbered, Consecutive, BySequence, OnBus;
      forall i | 0 <= i < |rows| && r.rows[i].synced && rows[i].record.payload.kind in c.channels
        ensures OnBus(c.channels, rows[i].record, r.log)
      {
        if rows[i].synced {
          LogGrows(c, records, acked, m, w.log, w.publishes, rows[i].record);
        } else {
          AckedIsPublished(c, rows, records, acked, m, w.log, w.publishes, i);
        }
      }
    }
  }

  /** With a bus, `sync_once` never marks a mapped record that is not on the bus, however the network
      and the bus fail. */
  lemma {:induction false} SyncOncePublishesFirst(c: Config, w: World, m: nat)
    requires Honest(w.rows, m, w.gateway, c.device) && c.bus && PublishedFirst(c.channels, w.rows, w.log)
    ensures PublishedFirst(c.channels, SyncOnce(c, w).world.rows, SyncOnce(c, w).world.log)
  {
    BatchIs(w.rows, m, c.batchSize);
    var records := Pending(w.rows, c.batchSize);
    hide Pending, PublishedFirst, AfterPush;
    if records != [] {
      PushHonest(c, w.gateway, w.rows, c.device, records, m, w.attempts, c.maxRetries);
      var p := Push(c, w.gateway, records, w.attempts, c.maxRetries);
      hide Push;
      if p.ok {
        AfterPushPublishesFirst(c, w.(gateway := p.gateway, attempts := p.attempts), records, p.acks, m);
      }
    }
  }

  // ---------------------------------------------------------------------------
  // Histories
  // ---------------------------------------------------------------------------

  /** The whole system, with the bus as the engine of one device has fed it. */
  datatype Site = Site(system: System, log: seq<Message>, attempts: nat, publishes: nat)

  /** What can happen next to the device: an event of the protocol, a sync under a configuration of its
      own (every restart may bring another one), a drain, or a sync that dies when everything is on the
      bus and only the first `upTo` acks are marked. A death at any earlier point is a sync whose network
      or bus fails. */
  datatype Action =
    | Protocol(event: Event)
    | Once(config: Config)
    | Drain(config: Config, batches: nat)
    | Dies(config: Config, upTo: nat)

  function WorldOf(site: Site, d: string): World {
    World(Rows(site.system, d), site.system.gateway, site.log, site.attempts, site.publishes)
  }

  function AfterOnce(site: Site, c: Config): Site {
    var w := WorldOf(site, c.device);
    var w' := SyncOnce(c, w).world;
    Site(StepAll(site.system, SyncEvents(c, w)), w'.log, w'.attempts, w'.publishes)
  }

  function AfterDrain(site: Site, c: Config, batches: nat): Site
    decreases batches
  {
    if batches == 0 then site
    else
      var outcome := SyncOnce(c, WorldOf(site, c.device)).outcome;
      if outcome.Acked? && outcome.n > 0 then AfterDrain(AfterOnce(site, c), c, batches - 1) else AfterOnce(site, c)
  }

  function AfterDeath(site: Site, c: Config, upTo: nat): Site {
    var w := WorldOf(site, c.device);
    var w' := CutShort(c, w, upTo);
    Site(StepAll(site.system, CutEvents(c, w, upTo)), w'.log, w'.attempts, w'.publishes)
  }

  function Act(site: Site, a: Action): Site {
    match a
    case Protocol(e) => site.(system := Step(site.system, e))
    case Once(c) => AfterOnce(site, c)
    case Drain(c, n) => AfterDrain(site, c, n)
    case Dies(c, n) => AfterDeath(site, c, n)
  }

  /** Only the engine marks rows of `d`, and every configuration of it has a bus and the same channels. */
  predicate Allowed(site: Site, d: string, channels: map<Kind, string>, a: Action) {
    match a
    case Protocol(e) => Enabled(site.system, e) && !(e.MarkEvent? && e.reply.device == d)
    case Once(c) => c.device == d && c.bus && c.channels == channels
    case Drain(c, _) => c.device == d && c.bus && c.channels == channels
    case Dies(c, _) => c.device == d && c.bus && c.channels == channels
  }

  ghost predicate History(site: Site, d: string, channels: map<Kind, string>, actions: seq<Action>)
    decreases |actions|
  {
    actions == [] || (Allowed(site, d, channels, actions[0]) && History(Act(site, actions[0]), d, channels, actions[1..]))
  }

  function ActAll(site: Site, actions: seq<Action>): Site
    decreases |actions|
  {
    if actions == [] then site else ActAll(Act(site, actions[0]), actions[1..])
  }

  /** The drain of a site is the engine's `SyncAll`. */
  lemma {:induction false} DrainIsSyncAll(site: Site, c: Config, batches: nat, total: nat)
    ensures SyncAll(c, WorldOf(site, c.device), batches, total).world == WorldOf(AfterDrain(site, c, batches), c.device)
    decreases batches
  {
    hide SyncOnce, AfterOnce, WorldOf;
    if batches > 0 {
      var w := WorldOf(site, c.device);
      OnceIsSyncOnce(site, c);
      if SyncOnce(c, w).outcome.Acked? {
        DrainIsSyncAll(AfterOnce(site, c), c, batches - 1, total + SyncOnce(c, w).outcome.n);
      }
    }
  }

  lemma {:induction false} OnceIsSyncOnce(site: Site, c: Config)
    ensures WorldOf(AfterOnce(site, c), c.device) == SyncOnce(c, WorldOf(site, c.device)).world
  {
    SyncOnceRefines(site.system, c, WorldOf(site, c.device));
  }

  ghost predicate Sound(site: Site, d: string, channels: map<Kind, string>) {
    Inv(site.system) && PublishedFirst(channels, Rows(site.system, d), site.log)
  }

  /** An event that is not a mark of `d` syncs no row of it. */
  lemma {:induction false} EventKeepsSound(site: Site, d: string, channels: map<Kind, string>, e: Event)
    requires Sound(site, d, channels) && Allowed(site, d, channels, Protocol(e))
    ensures Sound(Act(site, Protocol(e)), d, channels)
  {
    StepKeepsInv(site.system, e);
    var rows, rows' := Rows(site.system, d), Rows(Step(site.system, e), d);
    hide Inv, HandleAll, MarkSynced, Pending, PendingCount, MaxSequence, Enabled, OnBus;
    assert forall i :: 0 <= i < |rows'| && rows'[i].synced ==> i < |rows| && rows'[i] == rows[i];
  }

  lemma {:induction false} HonestSite(site: Site, d: string) returns (m: nat)
    requires Inv(site.system)
    ensures Honest(Rows(site.system, d), m, site.system.gateway, d)
  {
    assert DeviceOk(site.system, d);
    m :| DeviceFits(site.system, d, m);
  }

  lemma {:induction false} OnceKeepsSound(site: Site, c: Config)
    requires Sound(site, c.device, c.channels) && c.bus
    ensures Sound(AfterOnce(site, c), c.device, c.channels)
  {
    var w := WorldOf(site, c.device);
    var m := HonestSite(site, c.device);
    SyncOncePublishesFirst(c, w, m);
    SyncOnceRefines(site.system, c, w);
    RunKeepsInv(site.system, SyncEvents(c, w));
    hide Inv, SyncOnce, SyncEvents, PublishedFirst;
  }

  lemma {:induction false} DrainKeepsSound(site: Site, c: Config, batches: nat)
    requires Sound(site, c.device, c.channels) && c.bus
    ensures Sound(AfterDrain(site, c, batches), c.device, c.channels)
    decreases batches
  {
    hide Sound, AfterOnce, SyncOnce, WorldOf;
    if batches > 0 {
      OnceKeepsSound(site, c);
      if SyncOnce(c, WorldOf(site, c.device)).outcome.Acked? {
        DrainKeepsSound(AfterOnce(site, c), c, batches - 1);
      }
    }
  }

  lemma {:induction false} FirstsAcked(acks: seq<Ack>, n: nat)
    ensures forall q :: q in AckedSequences(Firsts(acks, n)) ==> q in AckedSequences(acks)
    decreases |acks|
  {
    if acks != [] && 0 < n < |acks| {
      assert Firsts(acks, n)[0] == acks[0] && Firsts(acks, n)[1..] == Firsts(acks[1..], n - 1);
      FirstsAcked(acks[1..], n - 1);
    }
  }

  /** Fewer rows marked, the same bus. */
  lemma {:induction false} FewerMarked(channels: map<Kind, string>, rows: seq<Row>, some: seq<int>, all: seq<int>, log: seq<Message>)
    requires (forall q :: q in some ==> q in all) && PublishedFirst(channels, MarkSynced(rows, all), log)
    ensures PublishedFirst(channels, MarkSynced(rows, some), log)
  {
    MarkedOnly(rows, some);
    MarkedOnly(rows, all);
    hide MarkSynced, OnBus;
  }

  /** A sync cut short among its marks has published everything it was going to. */
  lemma {:induction false} CutShortPublishesFirst(c: Config, w: World, m: nat, upTo: nat)
    requires Honest(w.rows, m, w.gateway, c.device) && c.bus && PublishedFirst(c.channels, w.rows, w.log)
    ensures PublishedFirst(c.channels, CutShort(c, w, upTo).rows, CutShort(c, w, upTo).log)
  {
    SyncOncePublishesFirst(c, w, m);
    var records := Pending(w.rows, c.batchSize);
    hide Pending, Push, Publish, PublishedFirst, AckedSequences, MarkSynced;
    if records != [] && SyncOnce(c, w).outcome.Acked? {
      var push := Push(c, w.gateway, records, w.attempts, c.maxRetries);
      assert SyncOnce(c, w).world.rows == MarkSynced(w.rows, AckedSequences(push.acks));
      FirstsAcked(push.acks, upTo);
      FewerMarked(c.channels, w.rows, AckedSequences(Firsts(push.acks, upTo)), AckedSequences(push.acks), SyncOnce(c, w).world.log);
    }
  }

  lemma {:induction false} DeathKeepsSound(site: Site, c: Config, upTo: nat)
    requires Sound(site, c.device, c.channels) && c.bus
    ensures Sound(AfterDeath(site, c, upTo), c.device, c.channels)
  {
    var w := WorldOf(site, c.device);
    var m := HonestSite(site, c.device);
    CutShortPublishesFirst(c, w, m, upTo);
    CutShortRefines(site.system, c, w, upTo);
    RunKeepsInv(site.system, CutEvents(c, w, upTo));
    hide Inv, CutShort, CutEvents, PublishedFirst;
  }

  lemma {:induction false} ActKeepsSound(site: Site, d: string, channels: map<Kind, string>, a: Action)
    requires Sound(site, d, channels) && Allowed(site, d, channels, a)
    ensures Sound(Act(site, a), d, channels)
  {
    hide Sound, AfterOnce, AfterDrain, AfterDeath;
    match a
    case Protocol(e) => EventKeepsSound(site, d, channels, e);
    case Once(c) => OnceKeepsSound(site, c);
    case Drain(c, n) => DrainKeepsSound(site, c, n);
    case Dies(c, n) => DeathKeepsSound(site, c, n);
  }

  lemma {:induction false} HistoryKeepsSound(site: Site, d: string, channels: map<Kind, string>, actions: seq<Action>)
    requires Sound(site, d, channels) && History(site, d, channels, actions)
    ensures Sound(ActAll(site, actions), d, channels)
    decreases |actions|
  {
    hide Sound, Act, Allowed;
    if actions != [] {
      ActKeepsSound(site, d, channels, actions[0]);
      HistoryKeepsSound(Act(site, actions[0]), d, channels, actions[1..]);
    }
  }

  /** From an empty outbox, over every history of enqueues, syncs that return or raise, drains, deaths and
      restarts of the device's engine, among whatever other devices and a network that loses, repeats and
      delays do: every record of a mapped kind that is marked synced is on the bus, on its channel. */
  lemma {:induction false} SyncedIsPublished(d: string, channels: map<Kind, string>, actions: seq<Action>)
    requires History(Site(START, [], 0, 0), d, channels, actions)
    ensures var site := ActAll(Site(START, [], 0, 0), actions);
      PublishedFirst(channels, Rows(site.system, d), site.log)
  {
    StartFits();
    HistoryKeepsSound(Site(START, [], 0, 0), d, channels, actions);
  }
}
