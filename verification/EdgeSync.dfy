/** The edge device's outbox (`edge/edge-daemon/edge_daemon/outbox.py`) and the gateway that accepts
    its records (`gateway.py`): the operations as functions, and the two objects updated in place. */
module EdgeSync {
  datatype Kind = RevenueTicket | EWaybill

  datatype Payload = Payload(kind: Kind, body: string)

  type PublicKey = string

  /** A signature is represented by the key and the bytes it signs, so it verifies exactly when the
      named key signed exactly these fields. */
  datatype Signature = Unsigned | Signed(key: PublicKey, device: string, sequence: int, payload: Payload)

  datatype SignedRecord = SignedRecord(device: string, sequence: int, payload: Payload, signature: Signature, signer: PublicKey)

  predicate Verifies(r: SignedRecord) {
    r.signature == Signed(r.signer, r.device, r.sequence, r.payload)
  }

  // ---------------------------------------------------------------------------
  // Outbox table
  // ---------------------------------------------------------------------------

  /** A row of the outbox table of one device; the table is listed in insertion order. */
  datatype Row = Row(record: SignedRecord, synced: bool)

  function MaxSequence(rows: seq<Row>): (m: int)
    ensures m >= 0 && forall i :: 0 <= i < |rows| ==> rows[i].record.sequence <= m
  {
    if rows == [] then 0
    else
      var rest := MaxSequence(rows[1..]);
      if rows[0].record.sequence > rest then rows[0].record.sequence else rest
  }

  function PendingCount(rows: seq<Row>): nat {
    if rows == [] then 0 else (if rows[0].synced then 0 else 1) + PendingCount(rows[1..])
  }

  /** The pending record numbered `s`, as a list of at most one. */
  function PendingAt(rows: seq<Row>, s: int): seq<SignedRecord> {
    if rows == [] then []
    else if rows[0].record.sequence == s && !rows[0].synced then [rows[0].record]
    else PendingAt(rows[1..], s)
  }

  /** Up to `limit` pending records numbered `s` or above, in sequence order. */
  function PendingFrom(rows: seq<Row>, s: int, limit: nat): seq<SignedRecord>
    decreases MaxSequence(rows) + 1 - s
  {
    if limit == 0 || s > MaxSequence(rows) then []
    else
      var here := PendingAt(rows, s);
      here + PendingFrom(rows, s + 1, if here == [] then limit else limit - 1)
  }

  function Pending(rows: seq<Row>, limit: nat): seq<SignedRecord> {
    PendingFrom(rows, 1, limit)
  }

  datatype Enqueued = Full | Queued(rows: seq<Row>, record: SignedRecord)

  function Enqueue(rows: seq<Row>, device: string, capacity: nat, key: PublicKey, payload: Payload): Enqueued {
    if PendingCount(rows) >= capacity then Full
    else
      var s := MaxSequence(rows) + 1;
      var record := SignedRecord(device, s, payload, Signed(key, device, s, payload), key);
      Queued(rows + [Row(record, false)], record)
  }

  function MarkOne(rows: seq<Row>, s: int): seq<Row> {
    seq(|rows|, i requires 0 <= i < |rows| => if rows[i].record.sequence == s then rows[i].(synced := true) else rows[i])
  }

  function MarkSynced(rows: seq<Row>, sequences: seq<int>): seq<Row>
    decreases |sequences|
  {
    if sequences == [] then rows else MarkSynced(MarkOne(rows, sequences[0]), sequences[1..])
  }

  class Outbox {
    const device: string
    const capacity: nat
    var rows: seq<Row>

    constructor (device: string, capacity: nat)
      requires capacity >= 5000
      ensures this.device == device && this.capacity == capacity && rows == []
    {
      this.device := device;
      this.capacity := capacity;
      rows := [];
    }

    /** Signs and inserts in one transaction; `None`-like `ok == false` when the buffer is full. */
    method Add(key: PublicKey, payload: Payload) returns (ok: bool, record: SignedRecord)
      modifies this
      ensures (if ok then Queued(rows, record) else Full) == Enqueue(old(rows), device, capacity, key, payload)
      ensures !ok ==> rows == old(rows)
    {
      var s := MaxSequence(rows) + 1;
      record := SignedRecord(device, s, payload, Unsigned, key);
      if PendingCount(rows) >= capacity {
        return false, record;
      }
      record := record.(signature := Signed(key, device, s, payload));
      rows := rows + [Row(record, false)];
      ok := true;
    }

    method Mark(sequences: seq<int>)
      modifies this
      ensures rows == MarkSynced(old(rows), sequences)
    {
      var i := 0;
      while i < |sequences|
        invariant 0 <= i <= |sequences|
        invariant MarkSynced(old(rows), sequences) == MarkSynced(rows, sequences[i..])
      {
        assert sequences[i..][0] == sequences[i] && sequences[i..][1..] == sequences[i + 1..];
        rows := MarkOne(rows, sequences[i]);
        i := i + 1;
      }
    }
  }

  // ---------------------------------------------------------------------------
  // Gateway
  // ---------------------------------------------------------------------------

  datatype Status = Accepted | Duplicate | Rejected

  datatype Ack = Ack(device: string, sequence: int, status: Status)

  datatype Gateway = Gateway(accepted: map<(string, int), SignedRecord>, highWater: map<string, int>)

  function HighWater(g: Gateway, device: string): int {
    if device in g.highWater then g.highWater[device] else 0
  }

  datatype Handled = Handled(gateway: Gateway, ack: Ack)

  function HandleRecord(g: Gateway, r: SignedRecord): Handled {
    if !Verifies(r) then Handled(g, Ack(r.device, r.sequence, Rejected))
    else if (r.device, r.sequence) in g.accepted then Handled(g, Ack(r.device, r.sequence, Duplicate))
    else if r.sequence <= HighWater(g, r.device) || r.sequence > HighWater(g, r.device) + 1 then
      Handled(g, Ack(r.device, r.sequence, Rejected))
    else
      Handled(Gateway(g.accepted[(r.device, r.sequence) := r], g.highWater[r.device := r.sequence]),
              Ack(r.device, r.sequence, Accepted))
  }

  datatype HandledAll = HandledAll(gateway: Gateway, acks: seq<Ack>)

  function HandleAll(g: Gateway, records: seq<SignedRecord>): HandledAll
    decreases |records|
  {
    if records == [] then HandledAll(g, [])
    else
      var first := HandleRecord(g, records[0]);
      var rest := HandleAll(first.gateway, records[1..]);
      HandledAll(rest.gateway, [first.ack] + rest.acks)
  }

  class GatewayState {
    var accepted: map<(string, int), SignedRecord>
    var highWater: map<string, int>

    function Model(): Gateway
      reads this
    {
      Gateway(accepted, highWater)
    }

    constructor ()
      ensures Model() == Gateway(map[], map[])
    {
      accepted, highWater := map[], map[];
    }

    method HandleOne(r: SignedRecord) returns (ack: Ack)
      modifies this
      ensures Handled(Model(), ack) == HandleRecord(old(Model()), r)
    {
      var key := (r.device, r.sequence);
      if !Verifies(r) {
        return Ack(r.device, r.sequence, Rejected);
      }
      if key in accepted {
        return Ack(r.device, r.sequence, Duplicate);
      }
      var hw := if r.device in highWater then highWater[r.device] else 0;
      if r.sequence <= hw || r.sequence > hw + 1 {
        return Ack(r.device, r.sequence, Rejected);
      }
      accepted := accepted[key := r];
      highWater := highWater[r.device := r.sequence];
      return Ack(r.device, r.sequence, Accepted);
    }

    method HandleBatch(records: seq<SignedRecord>) returns (acks: seq<Ack>)
      modifies this
      ensures HandledAll(Model(), acks) == HandleAll(old(Model()), records)
    {
      acks := [];
      var i := 0;
      while i < |records|
        invariant 0 <= i <= |records|
        invariant HandleAll(old(Model()), records).gateway == HandleAll(Model(), records[i..]).gateway
        invariant HandleAll(old(Model()), records).acks == acks + HandleAll(Model(), records[i..]).acks
      {
        assert records[i..][0] == records[i] && records[i..][1..] == records[i + 1..];
        var ack := HandleOne(records[i]);
        acks := acks + [ack];
        i := i + 1;
      }
    }
  }
}
