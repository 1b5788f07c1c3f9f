/** The funds-flow saga of `ledger/fundsflow/saga.py`: hold, split commit, optional payout, event
    publication, with compensation in reverse order and recovery after a crash.

    A process performs durable operations: client calls, outbox writes and store saves. Each one
    consumes a `Tick`; when the ticks run out the process has died, at that very point, and only
    what was saved survives. A tick also says what fails at that operation and what other users of
    the ledger did just before it. */
module Saga {
  import opened Sums
  import opened TransferLedger
  import opened TransferLedgerLaws

  datatype SagaState =
    | INIT | HELD | SPLIT_COMMITTED | PAYOUT_DONE | EVENT_PUBLISHED
    | COMPLETED | COMPENSATING | COMPENSATED | FAILED

  predicate Terminal(s: SagaState) {
    s == COMPLETED || s == COMPENSATED || s == FAILED
  }

  datatype StepKind = Hold | SplitCommit | Payout | EventPublish

  datatype PayoutSpec = NoPayout | PayoutSpec(account: Account, dest: Account, amount: int)

  /** The persisted step descriptors together with the idempotency key. */
  datatype Plan = Plan(key: string, source: Account, legs: seq<Leg>, payout: PayoutSpec) {
    function Steps(): seq<StepKind> {
      [Hold, SplitCommit] + (if payout.NoPayout? then [] else [Payout]) + [EventPublish]
    }

    function HoldTransfers(): seq<Transfer> { HoldChain(key, source, legs) }

    function ReversalTransfers(): seq<Transfer> { ReversalChain(key, source, legs) }

    function PayoutTransfers(): seq<Transfer> {
      if payout.NoPayout? then []
      else [Transfer(DeterministicTransferId(key, "payout"), payout.account, payout.dest, payout.amount,
                     false, false, key, "payout", PENDING)]
    }

    function RefundTransfers(): seq<Transfer> {
      if payout.NoPayout? then []
      else [Transfer(DeterministicTransferId(key, "payout|reversal"), payout.dest, payout.account, payout.amount,
                     false, false, key + "|reversal", "payout|reversal", PENDING)]
    }
  }

  /** `holdIds` is the `hold_chain_ids` entry of the record's context. */
  datatype HoldIds = NoIds | HoldIds(ids: seq<TransferId>)

  datatype SagaRecord = SagaRecord(state: SagaState, completed: seq<StepKind>, holdIds: HoldIds)

  function ForwardState(k: StepKind): SagaState {
    match k
    case Hold => HELD
    case SplitCommit => SPLIT_COMMITTED
    case Payout => PAYOUT_DONE
    case EventPublish => EVENT_PUBLISHED
  }

  /** The net effect of other users of the ledger. Their transfers carry other IDs, which no call of
      this saga reads, so only balances and hold totals matter. */
  datatype Others = Others(bal: map<Account, int>, held: map<Account, int>)

  datatype Tick = Tick(others: Others, failOnLeg: string, failOnPost: bool, publishFails: bool)

  /** History variables, written by no code. `without` is the ledger as it would be had this saga
      never called it. `stray` says that the last post attempt raised although the chain, which has
      legs, was already posted. `torn` lists reversal legs that were applied by a call that then raised. */
  datatype History = History(without: Ledger, stray: bool, torn: seq<Transfer>)

  /** What survives a crash, plus the history. `events` counts published completion events. */
  datatype World = World(ledger: Ledger, record: SagaRecord, events: nat, history: History)

  function AddMaps(m: map<Account, int>, d: map<Account, int>): map<Account, int> {
    map a | a in m.Keys + d.Keys :: Get(m, a) + Get(d, a)
  }

  function Disturb(l: Ledger, o: Others): Ledger {
    l.(balances := AddMaps(l.balances, o.bal), holds := AddMaps(l.holds, o.held))
  }

  function Interfere(w: World, o: Others): World {
    w.(ledger := Disturb(w.ledger, o), history := w.history.(without := Disturb(w.history.without, o)))
  }

  // ---------------------------------------------------------------------------
  // One step, one compensation
  // ---------------------------------------------------------------------------

  datatype Attempt = Attempt(ok: bool, world: World, record: SagaRecord)

  predicate AlreadyPosted(l: Ledger, ids: seq<TransferId>) {
    ids != [] && forall i :: 0 <= i < |ids| ==> ids[i] in l.transfers && l.transfers[ids[i]].state == POSTED
  }

  function Act(p: Plan, w: World, rec: SagaRecord, kind: StepKind, tick: Tick): Attempt {
    match kind
    case Hold =>
      var r := Create(w.ledger, p.HoldTransfers(), tick.failOnLeg);
      Attempt(r.ok, w.(ledger := r.ledger), if r.ok then rec.(holdIds := HoldIds(Ids(p.HoldTransfers()))) else rec)
    case SplitCommit =>
      if rec.holdIds.NoIds? then Attempt(false, w, rec)
      else
        var r := Post(w.ledger, rec.holdIds.ids, tick.failOnPost);
        var stray := !r.ok && AlreadyPosted(w.ledger, rec.holdIds.ids);
        Attempt(r.ok, w.(ledger := r.ledger, history := w.history.(stray := stray)), rec)
    case Payout =>
      var r := Create(w.ledger, p.PayoutTransfers(), tick.failOnLeg);
      Attempt(r.ok, w.(ledger := r.ledger), rec)
    case EventPublish =>
      Attempt(!tick.publishFails, if tick.publishFails then w else w.(events := w.events + 1), rec)
  }

  function StillPending(l: Ledger, ids: seq<TransferId>): seq<TransferId> {
    if ids == [] then []
    else (if ids[0] !in l.transfers || l.transfers[ids[0]].state == PENDING then [ids[0]] else []) + StillPending(l, ids[1..])
  }

  function Undo(p: Plan, w: World, rec: SagaRecord, kind: StepKind, tick: Tick): Attempt {
    match kind
    case Hold =>
      if rec.holdIds.NoIds? then Attempt(false, w, rec)
      else
        var ids := StillPending(w.ledger, rec.holdIds.ids);
        if ids == [] then Attempt(true, w, rec)
        else var r := Void(w.ledger, ids); Attempt(r.ok, w.(ledger := r.ledger), rec)
    case SplitCommit =>
      if !Reversible(p.legs) then Attempt(false, w, rec)
      else
        var r := Create(w.ledger, p.ReversalTransfers(), tick.failOnLeg);
        var torn := if r.ok then w.history.torn else w.history.torn + r.created;
        Attempt(r.ok, w.(ledger := r.ledger, history := w.history.(torn := torn)), rec)
    case Payout =>
      var r := Create(w.ledger, p.RefundTransfers(), tick.failOnLeg);
      Attempt(r.ok, w.(ledger := r.ledger), rec)
    case EventPublish => Attempt(true, w, rec)
  }

  // ---------------------------------------------------------------------------
  // The coordinator
  // ---------------------------------------------------------------------------

  function Save(w: World, rec: SagaRecord, ticks: seq<Tick>): World {
    if ticks == [] then w else Interfere(w, ticks[0].others).(record := rec)
  }

  /** The forward loop from the first step that `rec` does not list as completed. */
  function Execute(p: Plan, w: World, rec: SagaRecord, ticks: seq<Tick>): World
    decreases |ticks|
  {
    var c := |rec.completed|;
    if c >= |p.Steps()| then Save(w, rec.(state := COMPLETED), ticks)
    else if ticks == [] then w
    else
      var kind := p.Steps()[c];
      var a := Act(p, Interfere(w, ticks[0].others), rec, kind, ticks[0]);
      if !a.ok then Compensate(p, a.world, a.record, ticks[1..])
      else
        var done := a.record.(completed := rec.completed + [kind], state := ForwardState(kind));
        if |ticks| == 1 then a.world
        else Execute(p, Save(a.world, done, ticks[1..]), done, ticks[2..])
  }

  function Compensate(p: Plan, w: World, rec: SagaRecord, ticks: seq<Tick>): World {
    var rec1 := rec.(state := COMPENSATING);
    if ticks == [] then w else Walk(p, Save(w, rec1, ticks), rec1, |rec1.completed|, ticks[1..])
  }

  /** Compensations of the first `k` completed steps, last one first. */
  function Walk(p: Plan, w: World, rec: SagaRecord, k: nat, ticks: seq<Tick>): World
    requires k <= |rec.completed|
    decreases k
  {
    if k == 0 then Save(w, rec.(state := COMPENSATED), ticks)
    else if rec.completed[k - 1] == EventPublish then Walk(p, w, rec, k - 1, ticks)
    else if ticks == [] then w
    else
      var a := Undo(p, Interfere(w, ticks[0].others), rec, rec.completed[k - 1], ticks[0]);
      if !a.ok then Save(a.world, rec.(state := FAILED), ticks[1..])
      else Walk(p, a.world, rec, k - 1, ticks[1..])
  }

  /** One life of the process: it loads the saved record and drives it until the ticks run out. */
  function Recover(p: Plan, w: World, ticks: seq<Tick>): World {
    if Terminal(w.record.state) then w
    else if w.record.state == COMPENSATING then Compensate(p, w, w.record, ticks)
    else Execute(p, w, w.record, ticks)
  }

  function Lives(p: Plan, w: World, lives: seq<seq<Tick>>): World
    decreases |lives|
  {
    if lives == [] then w else Lives(p, Recover(p, w, lives[0]), lives[1..])
  }

  /** The world right after `begin` has saved the record. */
  function Begun(l: Ledger): World {
    World(l, SagaRecord(INIT, [], NoIds), 0, History(l, false, []))
  }
}
