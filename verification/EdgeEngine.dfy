/** The sync engine of `edge/edge-daemon/edge_daemon/sync.py`: one batch pushed with retries, acknowledged
    records published before they are marked, and the loop that drains the outbox. The transport and
    the event bus are oracles that say what becomes of each attempt; backoff delays are left out. */
module EdgeEngine {
  import opened Sequences
  import opened EdgeSync
  import opened EdgeProtocol

  /** What becomes of one attempt to post a batch. */
  datatype Delivery = Delivered | RequestLost | ReplyLost

  datatype Config = Config(
    device: string, batchSize: nat, maxRetries: nat,
    bus: bool, channels: map<Kind, string>,
    net: nat -> Delivery, busUp: nat -> bool)

  /** A message on the bus carries the payload; the sequence says whose payload it is. */
  datatype Message = Message(channel: string, payload: Payload, sequence: int)

  /** `attempts` and `publishes` count what has been asked of the network and of the bus so far. */
  datatype World = World(rows: seq<Row>, gateway: Gateway, log: seq<Message>, attempts: nat, publishes: nat)

  datatype Outcome = Acked(n: nat) | Unreachable | PublishFailed

  datatype Pushed = Pushed(ok: bool, gateway: Gateway, acks: seq<Ack>, attempts: nat)

  function Push(c: Config, g: Gateway, records: seq<SignedRecord>, attempts: nat, retries: nat): Pushed
    decreases retries
  {
    var h := HandleAll(g, records);
    match c.net(attempts)
    case Delivered => Pushed(true, h.gateway, h.acks, attempts + 1)
    case RequestLost =>
      if retries == 0 then Pushed(false, g, [], attempts + 1) else Push(c, g, records, attempts + 1, retries - 1)
    case ReplyLost =>
      if retries == 0 then Pushed(false, h.gateway, [], attempts + 1)
      else Push(c, h.gateway, records, attempts + 1, retries - 1)
  }

  function BySequence(records: seq<SignedRecord>): map<int, SignedRecord> {
    if records == [] then map[]
    else
      var n := |records| - 1;
      BySequence(records[..n])[records[n].sequence := records[n]]
  }

  datatype Published = Published(ok: bool, log: seq<Message>, publishes: nat)

  /** Publishes the acknowledged records of a mapped kind, in order, up to the first failure. */
  function Publish(c: Config, index: map<int, SignedRecord>, acked: seq<int>, log: seq<Message>, publishes: nat): Published
    decreases |acked|
  {
    if acked == [] then Published(true, log, publishes)
    else if acked[0] !in index then Published(false, log, publishes)
    else
      var payload := index[acked[0]].payload;
      if payload.kind !in c.channels then Publish(c, index, acked[1..], log, publishes)
      else if !c.busUp(publishes) then Published(false, log, publishes + 1)
      else
        Publish(c, index, acked[1..], log + [Message(c.channels[payload.kind], payload, acked[0])], publishes + 1)
  }

  datatype Synced = Synced(world: World, outcome: Outcome)

  function AfterPush(c: Config, w: World, records: seq<SignedRecord>, acks: seq<Ack>): Synced {
    var acked := AckedSequences(acks);
    var p := if c.bus && acked != [] then Publish(c, BySequence(records), acked, w.log, w.publishes)
             else Published(true, w.log, w.publishes);
    var w' := w.(log := p.log, publishes := p.publishes);
    if !p.ok then Synced(w', PublishFailed)
    else Synced(w'.(rows := MarkSynced(w.rows, acked)), Acked(|acked|))
  }

  function SyncOnce(c: Config, w: World): Synced {
    var records := Pending(w.rows, c.batchSize);
    if records == [] then Synced(w, Acked(0))
    else
      var push := Push(c, w.gateway, records, w.attempts, c.maxRetries);
      var w' := w.(gateway := push.gateway, attempts := push.attempts);
      if !push.ok then Synced(w', Unreachable) else AfterPush(c, w', records, push.acks)
  }

  function SyncAll(c: Config, w: World, batches: nat, total: nat): Synced
    decreases batches
  {
    if batches == 0 then Synced(w, Acked(total))
    else
      var one := SyncOnce(c, w);
      if !one.outcome.Acked? then one
      else if one.outcome.n == 0 then Synced(one.world, Acked(total))
      else SyncAll(c, one.world, batches - 1, total + one.outcome.n)
  }

  // ---------------------------------------------------------------------------
  // The engine
  // ---------------------------------------------------------------------------

  class SyncEngine {
    const outbox: Outbox
    const gateway: GatewayState
    const config: Config
    var log: seq<Message>
    var attempts: nat
    var publishes: nat

    constructor (outbox: Outbox, gateway: GatewayState, config: Config)
      requires config.device == outbox.device
      ensures this.outbox == outbox && this.gateway == gateway && this.config == config
      ensures log == [] && attempts == 0 && publishes == 0
    {
      this.outbox, this.gateway, this.config := outbox, gateway, config;
      log, attempts, publishes := [], 0, 0;
    }

    function Model(): World
      reads this, outbox, gateway
    {
      World(outbox.rows, gateway.Model(), log, attempts, publishes)
    }

    /** The retry loop: attempts until a reply arrives or the retries are used up. */
    method PushBatch(records: seq<SignedRecord>) returns (ok: bool, acks: seq<Ack>)
      modifies this`attempts, gateway
      ensures Pushed(ok, gateway.Model(), acks, attempts) ==
        Push(config, old(gateway.Model()), records, old(attempts), config.maxRetries)
    {
      hide HandleAll;
      ok, acks := false, [];
      var attempt := 0;
      while attempt <= config.maxRetries && !ok
        invariant 0 <= attempt <= config.maxRetries + 1
        invariant !ok ==> acks == []
        invariant !ok && attempt <= config.maxRetries ==>
          Push(config, old(gateway.Model()), records, old(attempts), config.maxRetries) ==
            Push(config, gateway.Model(), records, attempts, config.maxRetries - attempt)
        invariant ok || attempt > config.maxRetries ==>
          Push(config, old(gateway.Model()), records, old(attempts), config.maxRetries) ==
            Pushed(ok, gateway.Model(), acks, attempts)
        decreases config.maxRetries - attempt, !ok
      {
        var fate := config.net(attempts);
        attempts := attempts + 1;
        if fate != RequestLost {
          var reply := gateway.HandleBatch(records);
          if fate == Delivered {
            ok, acks := true, reply;
          }
        }
        if !ok {
          attempt := attempt + 1;
        }
      }
    }

    method PublishAcked(records: seq<SignedRecord>, acked: seq<int>) returns (ok: bool)
      modifies this`log, this`publishes
      ensures Published(ok, log, publishes) == Publish(config, BySequence(records), acked, old(log), old(publishes))
    {
      var index: map<int, SignedRecord> := map[];
      for i := 0 to |records|
        invariant index == BySequence(records[..i])
      {
        assert records[..i + 1][..i] == records[..i];
        index := index[records[i].sequence := records[i]];
      }
      assert records[..|records|] == records;
      for i := 0 to |acked|
        invariant Publish(config, index, acked, old(log), old(publishes)) == Publish(config, index, acked[i..], log, publishes)
      {
        assert acked[i..][0] == acked[i] && acked[i..][1..] == acked[i + 1..];
        if acked[i] !in index {
          return false;
        }
        var payload := index[acked[i]].payload;
        if payload.kind in config.channels {
          var up := config.busUp(publishes);
          publishes := publishes + 1;
          if !up {
            return false;
          }
          log := log + [Message(config.channels[payload.kind], payload, acked[i])];
        }
      }
      return true;
    }

    method RunSyncOnce() returns (outcome: Outcome)
      modifies this, outbox, gateway
      ensures Synced(Model(), outcome) == SyncOnce(config, old(Model()))
    {
      hide Push, HandleAll, Publish, MarkSynced, Pending, AckedSequences;
      var records := Pending(outbox.rows, config.batchSize);
      if records == [] {
        return Acked(0);
      }
      var ok, acks := PushBatch(records);
      if !ok {
        return Unreachable;
      }
      var acked := AckedSequences(acks);
      if config.bus && acked != [] {
        var published := PublishAcked(records, acked);
        if !published {
          return PublishFailed;
        }
      }
      outbox.Mark(acked);
      return Acked(|acked|);
    }

    method RunSyncAll(maxBatches: nat) returns (outcome: Outcome)
      modifies this, outbox, gateway
      ensures Synced(Model(), outcome) == SyncAll(config, old(Model()), maxBatches, 0)
    {
      hide SyncOnce;
      var total: nat := 0;
      for i := 0 to maxBatches
        invariant SyncAll(config, old(Model()), maxBatches, 0) == SyncAll(config, Model(), maxBatches - i, total)
      {
        var one := RunSyncOnce();
        if !one.Acked? {
          return one;
        }
        total := total + one.n;
        if one.n == 0 {
          break;
        }
      }
      return Acked(total);
    }
  }
}
