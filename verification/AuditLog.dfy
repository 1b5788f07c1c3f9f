/** The control plane's audit log, `services/control-plane/app/domain.py`: one global log that interleaves
    a hash chain for every tenant. */
module AuditLog {
  import opened HashChain

  const GLOBAL_KEY := "_global"
  const GENESIS_TYPE := "ng.sos.audit.genesis"
  const CONTROL_PLANE := "control-plane"

  type TenantId = Option<string>

  /** An audit event without its chain fields; its event id is a function of `seqNo`. */
  datatype Body = Body(seqNo: nat, eventType: string, tenant: TenantId, actor: string, detail: string, at: string)

  type AuditEvent = Event<Body>

  function ChainKey(tenant: TenantId): string {
    if tenant.Some? then tenant.value else GLOBAL_KEY
  }

  datatype Log = Log(seqNo: nat, lastHash: map<string, Hash>, audit: seq<AuditEvent>)

  /** What a caller passes, and what the clock reads for the event and for a genesis event before it. */
  datatype Entry = Entry(eventType: string, tenant: TenantId, actor: string, detail: string, at: string, genesisAt: string)

  function GenesisDetail(tenant: TenantId): string {
    match tenant
    case None => "chain=sha256/canonical-json"
    case Some(t) => "chain=sha256/canonical-json tenant_id=" + t
  }

  function AppendChained(h: (Body, Hash) -> Hash, log: Log, e: Entry): Log {
    var key := ChainKey(e.tenant);
    var prev := if key in log.lastHash then log.lastHash[key] else GENESIS;
    var body := Body(log.seqNo + 1, e.eventType, e.tenant, e.actor, e.detail, e.at);
    var hash := h(body, prev);
    Log(log.seqNo + 1, log.lastHash[key := hash], log.audit + [Event(body, Some(prev), Some(hash))])
  }

  function GenesisEntry(e: Entry): Entry {
    Entry(GENESIS_TYPE, e.tenant, CONTROL_PLANE, GenesisDetail(e.tenant), e.genesisAt, e.genesisAt)
  }

  function Append(h: (Body, Hash) -> Hash, log: Log, e: Entry): Log {
    AppendChained(h, if ChainKey(e.tenant) in log.lastHash then log else AppendChained(h, log, GenesisEntry(e)), e)
  }

  class MetadataStore {
    const h: (Body, Hash) -> Hash
    var seqNo: nat
    var lastHash: map<string, Hash>
    var audit: seq<AuditEvent>

    constructor (h: (Body, Hash) -> Hash)
      ensures this.h == h && Model() == Log(0, map[], [])
    {
      this.h := h;
      seqNo, lastHash, audit := 0, map[], [];
    }

    function Model(): Log
      reads this
    {
      Log(seqNo, lastHash, audit)
    }

    method AppendChainedLocked(e: Entry)
      modifies this
      ensures Model() == AppendChained(h, old(Model()), e)
    {
      var key := ChainKey(e.tenant);
      var prevHash := if key in lastHash then lastHash[key] else GENESIS;
      seqNo := seqNo + 1;
      var body := Body(seqNo, e.eventType, e.tenant, e.actor, e.detail, e.at);
      var event := Event(body, Some(prevHash), None);
      event := event.(eventHash := Some(h(body, prevHash)));
      lastHash := lastHash[key := event.eventHash.value];
      audit := audit + [event];
    }

    method AppendLocked(e: Entry)
      modifies this
      ensures Model() == Append(h, old(Model()), e)
    {
      if ChainKey(e.tenant) !in lastHash {
        AppendChainedLocked(Entry(GENESIS_TYPE, e.tenant, CONTROL_PLANE, GenesisDetail(e.tenant), e.genesisAt, e.genesisAt));
      }
      AppendChainedLocked(e);
    }
  }

  // ---------------------------------------------------------------------------
  // The chains inside the log
  // ---------------------------------------------------------------------------

  /** The events of one chain, in log order. */
  function ChainOf(audit: seq<AuditEvent>, key: string): seq<AuditEvent> {
    if audit == [] then []
    else
      var n := |audit| - 1;
      if ChainKey(audit[n].payload.tenant) == key then ChainOf(audit[..n], key) + [audit[n]] else ChainOf(audit[..n], key)
  }

  lemma {:induction false} ChainOfAppend(audit: seq<AuditEvent>, e: AuditEvent, key: string)
    ensures ChainOf(audit + [e], key) ==
      if ChainKey(e.payload.tenant) == key then ChainOf(audit, key) + [e] else ChainOf(audit, key)
  {
    assert (audit + [e])[..|audit|] == audit;
  }

  /** A chain is clean, starts with its one genesis event, and its head is what the log remembers. */
  ghost predicate ChainOk(h: (Body, Hash) -> Hash, log: Log, key: string) {
    var chain := ChainOf(log.audit, key);
    && Clean(h, chain)
    && (key in log.lastHash <==> chain != [])
    && (chain != [] ==> chain[|chain| - 1].eventHash == Some(log.lastHash[key]))
    && (forall i :: 0 <= i < |chain| ==> (chain[i].payload.eventType == GENESIS_TYPE <==> i == 0))
  }

  ghost predicate LogOk(h: (Body, Hash) -> Hash, log: Log) {
    && log.seqNo == |log.audit|
    && (forall i :: 0 <= i < |log.audit| ==> log.audit[i].payload.seqNo == i + 1)
    && (forall key :: ChainOk(h, log, key))
  }

  /** What a chain is, without the log around it. */
  ghost predicate ChainIs(h: (Body, Hash) -> Hash, chain: seq<AuditEvent>, known: bool, head: Hash) {
    && Clean(h, chain)
    && (known <==> chain != [])
    && (chain != [] ==> chain[|chain| - 1].eventHash == Some(head))
    && (forall i :: 0 <= i < |chain| ==> (chain[i].payload.eventType == GENESIS_TYPE <==> i == 0))
  }

  lemma {:induction false} ChainGrows(h: (Body, Hash) -> Hash, chain: seq<AuditEvent>, known: bool, head: Hash, body: Body)
    requires ChainIs(h, chain, known, head) && (body.eventType == GENESIS_TYPE <==> !known)
    ensures var prev := if known then head else GENESIS;
      ChainIs(h, chain + [Event(body, Some(prev), Some(h(body, prev)))], true, h(body, prev))
  {
    AppendKeepsClean(h, chain, body);
    hide Clean;
  }

  lemma {:induction false} ChainOkIs(h: (Body, Hash) -> Hash, log: Log, key: string)
    ensures ChainOk(h, log, key) <==>
      ChainIs(h, ChainOf(log.audit, key), key in log.lastHash, if key in log.lastHash then log.lastHash[key] else GENESIS)
  {
    hide Clean, ChainOf;
  }

  /** Appending to one chain: it stays clean and no other chain moves. */
  lemma {:induction false} AppendChainedKeeps(h: (Body, Hash) -> Hash, log: Log, e: Entry, key: string)
    requires ChainOk(h, log, key) && ChainOk(h, log, ChainKey(e.tenant))
    requires e.eventType == GENESIS_TYPE <==> ChainKey(e.tenant) !in log.lastHash
    ensures ChainOk(h, AppendChained(h, log, e), key)
  {
    hide ChainOk, ChainOf, ChainIs;
    var log' := AppendChained(h, log, e);
    var event := log'.audit[|log.audit|];
    ChainOfAppend(log.audit, event, key);
    ChainOkIs(h, log, key);
    ChainOkIs(h, log', key);
    if ChainKey(e.tenant) == key {
      ChainGrows(h, ChainOf(log.audit, key), key in log.lastHash, if key in log.lastHash then log.lastHash[key] else GENESIS, event.payload);
    }
  }

  lemma {:induction false} AppendChainedKeepsLog(h: (Body, Hash) -> Hash, log: Log, e: Entry)
    requires LogOk(h, log) && (e.eventType == GENESIS_TYPE <==> ChainKey(e.tenant) !in log.lastHash)
    ensures LogOk(h, AppendChained(h, log, e)) && ChainKey(e.tenant) in AppendChained(h, log, e).lastHash
  {
    var log' := AppendChained(h, log, e);
    assert forall i :: 0 <= i < |log'.audit| ==> log'.audit[i].payload.seqNo == i + 1;
    assert log'.seqNo == |log'.audit| && ChainKey(e.tenant) in log'.lastHash;
    hide ChainOk, AppendChained;
    assert ChainOk(h, log, ChainKey(e.tenant));
    forall key ensures ChainOk(h, log', key) {
      assert ChainOk(h, log, key);
      AppendChainedKeeps(h, log, e, key);
    }
  }

  lemma {:induction false} AppendKeeps(h: (Body, Hash) -> Hash, log: Log, e: Entry)
    requires LogOk(h, log) && e.eventType != GENESIS_TYPE
    ensures LogOk(h, Append(h, log, e))
  {
    hide LogOk, AppendChained;
    if ChainKey(e.tenant) in log.lastHash {
      AppendChainedKeepsLog(h, log, e);
    } else {
      AppendChainedKeepsLog(h, log, GenesisEntry(e));
      AppendChainedKeepsLog(h, AppendChained(h, log, GenesisEntry(e)), e);
    }
  }

  function AppendAll(h: (Body, Hash) -> Hash, log: Log, es: seq<Entry>): Log
    decreases |es|
  {
    if es == [] then log else AppendAll(h, Append(h, log, es[0]), es[1..])
  }

  lemma {:induction false} RunKeeps(h: (Body, Hash) -> Hash, log: Log, es: seq<Entry>)
    requires LogOk(h, log) && forall i :: 0 <= i < |es| ==> es[i].eventType != GENESIS_TYPE
    ensures LogOk(h, AppendAll(h, log, es))
    decreases |es|
  {
    hide LogOk, Append;
    if es != [] {
      AppendKeeps(h, log, es[0]);
      assert forall i :: 0 <= i < |es[1..]| ==> es[1..][i] == es[i + 1];
      RunKeeps(h, Append(h, log, es[0]), es[1..]);
    }
  }

  lemma {:induction false} EmptyLogOk(h: (Body, Hash) -> Hash)
    ensures LogOk(h, Log(0, map[], []))
  {
    forall key ensures ChainOk(h, Log(0, map[], []), key) {
      assert ChainOf([], key) == [];
    }
  }

  /** However appends for different tenants interleave, every tenant's events form a clean chain with
      exactly one genesis event, first, and sequence numbers strictly increase along the whole log. */
  lemma {:induction false} EveryChainIsClean(h: (Body, Hash) -> Hash, es: seq<Entry>, key: string)
    requires forall i :: 0 <= i < |es| ==> es[i].eventType != GENESIS_TYPE
    ensures var log := AppendAll(h, Log(0, map[], []), es);
      var chain := ChainOf(log.audit, key);
      && Clean(h, chain)
      && (forall i :: 0 <= i < |chain| ==> (chain[i].payload.eventType == GENESIS_TYPE <==> i == 0))
      && (forall i, k :: 0 <= i < k < |log.audit| ==> log.audit[i].payload.seqNo < log.audit[k].payload.seqNo)
  {
    EmptyLogOk(h);
    RunKeeps(h, Log(0, map[], []), es);
    assert ChainOk(h, AppendAll(h, Log(0, map[], []), es), key);
  }

  /** The events of one tenant id. */
  function TenantEvents(audit: seq<AuditEvent>, tenant: TenantId): seq<AuditEvent> {
    if audit == [] then []
    else
      var n := |audit| - 1;
      if audit[n].payload.tenant == tenant then TenantEvents(audit[..n], tenant) + [audit[n]] else TenantEvents(audit[..n], tenant)
  }

  /** A tenant's events are its chain, unless it is called like the chain of events without a tenant. */
  lemma {:induction false} TenantEventsAreChain(audit: seq<AuditEvent>, tenant: string)
    requires tenant != GLOBAL_KEY
    ensures TenantEvents(audit, Some(tenant)) == ChainOf(audit, tenant)
    decreases |audit|
  {
    if audit != [] { TenantEventsAreChain(audit[..|audit| - 1], tenant); }
  }

  // ---------------------------------------------------------------------------
  // The heads determine the whole log
  // ---------------------------------------------------------------------------

  ghost predicate Increasing(audit: seq<AuditEvent>) {
    forall i, k :: 0 <= i < k < |audit| ==> audit[i].payload.seqNo < audit[k].payload.seqNo
  }

  lemma {:induction false} ChainMembers(audit: seq<AuditEvent>, key: string, e: AuditEvent)
    ensures e in ChainOf(audit, key) <==> e in audit && ChainKey(e.payload.tenant) == key
    decreases |audit|
  {
    if audit != [] {
      var n := |audit| - 1;
      ChainMembers(audit[..n], key, e);
      assert audit == audit[..n] + [audit[n]];
    }
  }

  lemma {:induction false} LastIsLatest(audit: seq<AuditEvent>, e: AuditEvent)
    requires Increasing(audit) && e in audit
    ensures e.payload.seqNo <= audit[|audit| - 1].payload.seqNo
    ensures e.payload.seqNo == audit[|audit| - 1].payload.seqNo ==> e == audit[|audit| - 1]
  {
  }

  ghost predicate SameChains(a: seq<AuditEvent>, b: seq<AuditEvent>) {
    forall key :: ChainOf(a, key) == ChainOf(b, key)
  }

  lemma {:induction false} SameMembers(a: seq<AuditEvent>, b: seq<AuditEvent>, e: AuditEvent)
    requires SameChains(a, b)
    ensures e in a <==> e in b
  {
    var key := ChainKey(e.payload.tenant);
    ChainMembers(a, key, e);
    ChainMembers(b, key, e);
    assert ChainOf(a, key) == ChainOf(b, key);
  }

  lemma {:induction false} SameEnd(a: seq<AuditEvent>, b: seq<AuditEvent>)
    requires Increasing(a) && Increasing(b) && SameChains(a, b)
    ensures a == [] <==> b == []
    ensures a != [] && b != [] ==> a[|a| - 1] == b[|b| - 1]
  {
    hide SameChains;
    if a != [] {
      var x := a[|a| - 1];
      SameMembers(a, b, x);
      LastIsLatest(b, x);
    }
    if b != [] {
      var y := b[|b| - 1];
      SameMembers(a, b, y);
      LastIsLatest(a, y);
    }
    hide Increasing;
  }

  lemma {:induction false} IncreasingPrefix(a: seq<AuditEvent>)
    requires Increasing(a) && a != []
    ensures Increasing(a[..|a| - 1]) && a == a[..|a| - 1] + [a[|a| - 1]]
  {
  }

  /** A log is determined by its chains, because every event carries its place in the log. */
  lemma {:induction false} ChainsDetermineLog(a: seq<AuditEvent>, b: seq<AuditEvent>)
    requires Increasing(a) && Increasing(b) && SameChains(a, b)
    ensures a == b
    decreases |a|
  {
    SameEnd(a, b);
    if a != [] && b != [] {
      IncreasingPrefix(a);
      IncreasingPrefix(b);
      hide Increasing, ChainOf;
      SameTails(a, b, a[..|a| - 1], b[..|b| - 1]);
      hide SameChains;
      ChainsDetermineLog(a[..|a| - 1], b[..|b| - 1]);
    }
  }

  lemma {:induction false} SameTails(a: seq<AuditEvent>, b: seq<AuditEvent>, x: seq<AuditEvent>, y: seq<AuditEvent>)
    requires a != [] && b != [] && a[|a| - 1] == b[|b| - 1] && SameChains(a, b)
    requires x == a[..|a| - 1] && y == b[..|b| - 1]
    ensures SameChains(x, y)
  {
    forall key ensures ChainOf(x, key) == ChainOf(y, key) {
      SameTail(a, b, key);
    }
  }

  lemma {:induction false} SameTail(a: seq<AuditEvent>, b: seq<AuditEvent>, key: string)
    requires a != [] && b != [] && a[|a| - 1] == b[|b| - 1] && ChainOf(a, key) == ChainOf(b, key)
    ensures ChainOf(a[..|a| - 1], key) == ChainOf(b[..|b| - 1], key)
  {
    var x, y := ChainOf(a[..|a| - 1], key), ChainOf(b[..|b| - 1], key);
    if ChainKey(a[|a| - 1].payload.tenant) == key {
      assert (x + [a[|a| - 1]])[..|x|] == x && (y + [b[|b| - 1]])[..|y|] == y;
    }
  }

  /** Tamper evidence for many chains in one log: two logs whose sequence numbers increase, whose chains
      all verify clean and whose chains end in the same hashes are the same log. */
  lemma {:induction false} HeadsDetermineLog(h: (Body, Hash) -> Hash, a: seq<AuditEvent>, b: seq<AuditEvent>)
    requires Ideal(h) && Increasing(a) && Increasing(b)
    requires forall key :: Clean(h, ChainOf(a, key)) && Clean(h, ChainOf(b, key))
    requires forall key :: LastHash(ChainOf(a, key)) == LastHash(ChainOf(b, key))
    ensures a == b
  {
    forall key ensures ChainOf(a, key) == ChainOf(b, key) {
      var x, y := ChainOf(a, key), ChainOf(b, key);
      assert LastHash(x) == LastHash(y) && Clean(h, x) && Clean(h, y);
      if x != [] { CleanHashed(h, x); }
      if y != [] { CleanHashed(h, y); }
      if x != [] && y != [] { SameHeadSameChain(h, x, y); }
    }
    ChainsDetermineLog(a, b);
  }

  // ---------------------------------------------------------------------------
  // What is recorded
  // ---------------------------------------------------------------------------

  /** Who did what, when. */
  datatype Fact = Fact(eventType: string, tenant: TenantId, actor: string, detail: string, at: string)

  /** The facts of a log, genesis events aside, in order. */
  function Facts(audit: seq<AuditEvent>): seq<Fact> {
    if audit == [] then []
    else
      var n := |audit| - 1;
      var b := audit[n].payload;
      Facts(audit[..n]) + (if b.eventType == GENESIS_TYPE then [] else [Fact(b.eventType, b.tenant, b.actor, b.detail, b.at)])
  }

  function EntryFacts(es: seq<Entry>): seq<Fact> {
    if es == [] then [] else [Fact(es[0].eventType, es[0].tenant, es[0].actor, es[0].detail, es[0].at)] + EntryFacts(es[1..])
  }

  lemma {:induction false} FactsAppend(audit: seq<AuditEvent>, e: AuditEvent)
    ensures Facts(audit + [e]) == Facts(audit) + Facts([e])
  {
    assert (audit + [e])[..|audit|] == audit && [e][..0] == [];
  }

  lemma {:induction false} AppendRecords(h: (Body, Hash) -> Hash, log: Log, e: Entry)
    requires e.eventType != GENESIS_TYPE
    ensures Facts(Append(h, log, e).audit) == Facts(log.audit) + [Fact(e.eventType, e.tenant, e.actor, e.detail, e.at)]
  {
    var log1 := if ChainKey(e.tenant) in log.lastHash then log else AppendChained(h, log, GenesisEntry(e));
    var log2 := AppendChained(h, log1, e);
    if ChainKey(e.tenant) !in log.lastHash {
      var genesis := log1.audit[|log.audit|];
      FactsAppend(log.audit, genesis);
      assert [genesis][..0] == [] && Facts([genesis]) == [];
    }
    assert Facts(log1.audit) == Facts(log.audit);
    var event := log2.audit[|log1.audit|];
    FactsAppend(log1.audit, event);
    assert [event][..0] == [];
  }

  /** Nothing that was appended is lost, changed or put in another order, and nothing is added but genesis events. */
  lemma {:induction false} LogKeepsEntries(h: (Body, Hash) -> Hash, log: Log, es: seq<Entry>)
    requires forall i :: 0 <= i < |es| ==> es[i].eventType != GENESIS_TYPE
    ensures Facts(AppendAll(h, log, es).audit) == Facts(log.audit) + EntryFacts(es)
    decreases |es|
  {
    hide Append, Facts, AppendChained;
    if es != [] {
      AppendRecords(h, log, es[0]);
      assert forall i :: 0 <= i < |es[1..]| ==> es[1..][i] == es[i + 1];
      LogKeepsEntries(h, Append(h, log, es[0]), es[1..]);
      assert EntryFacts(es) == [Fact(es[0].eventType, es[0].tenant, es[0].actor, es[0].detail, es[0].at)] + EntryFacts(es[1..]);
    }
  }
}
