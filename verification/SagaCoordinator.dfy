/** The coordinator in the source's form: loops over the steps and over the completed steps in
    reverse, updating the client, the store and the outbox in place. Each method is proved to move
    the surviving state exactly as the functions of `Saga` do. */
module SagaCoordinators {
  import opened Sums
  import opened TransferLedger
  import opened TransferLedgerLaws
  import opened Saga

  class SagaCoordinator {
    const plan: Plan
    const client: InMemoryTBClient
    var saved: SagaRecord
    var events: nat
    ghost var history: History

    ghost function Model(): World
      reads this, client
    {
      World(client.Model(), saved, events, history)
    }

    /** `begin` saves the record before anything else happens. */
    constructor (plan: Plan, client: InMemoryTBClient)
      ensures this.plan == plan && this.client == client
      ensures Model() == Begun(old(client.Model()))
    {
      this.plan := plan;
      this.client := client;
      saved := SagaRecord(INIT, [], NoIds);
      events := 0;
      history := History(client.Model(), false, []);
    }

    /** What other users of the ledger do between two operations of this process. */
    method LetOthersAct(o: Others)
      modifies this`history, client
      ensures Model() == Interfere(old(Model()), o)
      ensures client.failOnLeg == old(client.failOnLeg) && client.failOnPost == old(client.failOnPost)
    {
      client.balances := AddMaps(client.balances, o.bal);
      client.holds := AddMaps(client.holds, o.held);
      history := history.(without := Disturb(history.without, o));
    }

    method SaveRecord(record: SagaRecord, fate: seq<Tick>)
      modifies this`saved, this`history, client
      ensures Model() == Save(old(Model()), record, fate)
    {
      if fate != [] {
        LetOthersAct(fate[0].others);
        saved := record;
      }
    }

    method RunAction(kind: StepKind, record: SagaRecord, tick: Tick) returns (ok: bool, rec: SagaRecord)
      modifies this`events, this`history, client
      ensures Attempt(ok, Model(), rec) == Act(plan, old(Model()), record, kind, tick)
      ensures rec.completed == record.completed
    {
      rec := record;
      client.failOnLeg, client.failOnPost := tick.failOnLeg, tick.failOnPost;
      match kind
      case Hold =>
        var chain := BuildHoldChain(plan.key, plan.source, plan.legs);
        var created;
        ok, created := client.CreateTransfers(chain);
        if ok {
          rec := rec.(holdIds := HoldIds(Ids(chain)));
        }
      case SplitCommit =>
        if rec.holdIds.NoIds? {
          return false, rec;
        }
        ghost var before := client.Model();
        ok := client.PostPendingTransfers(rec.holdIds.ids);
        history := history.(stray := !ok && AlreadyPosted(before, rec.holdIds.ids));
      case Payout =>
        var created;
        ok, created := client.CreateTransfers(plan.PayoutTransfers());
      case EventPublish =>
        ok := !tick.publishFails;
        if ok {
          events := events + 1;
        }
    }

    method RunCompensation(kind: StepKind, record: SagaRecord, tick: Tick) returns (ok: bool)
      modifies this`history, client
      ensures Attempt(ok, Model(), record) == Undo(plan, old(Model()), record, kind, tick)
    {
      client.failOnLeg, client.failOnPost := tick.failOnLeg, tick.failOnPost;
      match kind
      case Hold =>
        if record.holdIds.NoIds? {
          return false;
        }
        var ids := StillPending(client.Model(), record.holdIds.ids);
        ok := true;
        if ids != [] {
          ok := client.VoidPendingTransfers(ids);
        }
      case SplitCommit =>
        var built, chain := BuildReversalChain(plan.key, plan.source, plan.legs);
        if !built {
          return false;
        }
        var created;
        ok, created := client.CreateTransfers(chain);
        if !ok {
          history := history.(torn := history.torn + created);
        }
      case Payout =>
        var created;
        ok, created := client.CreateTransfers(plan.RefundTransfers());
      case EventPublish =>
        ok := true;
    }

    method ExecuteSteps(record: SagaRecord, fate: seq<Tick>)
      modifies this`saved, this`events, this`history, client
      ensures Model() == Execute(plan, old(Model()), record, fate)
    {
      hide Act, Compensate, Interfere, Save;
      var rec, left := record, fate;
      var steps := plan.Steps();
      var i := |rec.completed|;
      while i < |steps|
        invariant i == |rec.completed|
        invariant Execute(plan, old(Model()), record, fate) == Execute(plan, Model(), rec, left)
      {
        if left == [] {
          return;
        }
        LetOthersAct(left[0].others);
        var ok;
        ok, rec := RunAction(steps[i], rec, left[0]);
        if !ok {
          CompensateSteps(rec, left[1..]);
          return;
        }
        rec := rec.(completed := rec.completed + [steps[i]], state := ForwardState(steps[i]));
        if |left| == 1 {
          return;
        }
        SaveRecord(rec, left[1..]);
        left := left[2..];
        i := i + 1;
      }
      SaveRecord(rec.(state := COMPLETED), left);
    }

    method CompensateSteps(record: SagaRecord, fate: seq<Tick>)
      modifies this`saved, this`history, client
      ensures Model() == Compensate(plan, old(Model()), record, fate)
    {
      if fate == [] {
        return;
      }
      var rec := record.(state := COMPENSATING);
      SaveRecord(rec, fate);
      var left := fate[1..];
      var k := |rec.completed|;
      while k > 0
        invariant 0 <= k <= |rec.completed|
        invariant Compensate(plan, old(Model()), record, fate) == Walk(plan, Model(), rec, k, left)
      {
        if rec.completed[k - 1] != EventPublish {
          if left == [] {
            return;
          }
          LetOthersAct(left[0].others);
          var ok := RunCompensation(rec.completed[k - 1], rec, left[0]);
          if !ok {
            SaveRecord(rec.(state := FAILED), left[1..]);
            return;
          }
          left := left[1..];
        }
        k := k - 1;
      }
      SaveRecord(rec.(state := COMPENSATED), left);
    }

    /** One recovery pass over the saved record. */
    method RecoverUnfinished(fate: seq<Tick>)
      modifies this`saved, this`events, this`history, client
      ensures Model() == Recover(plan, old(Model()), fate)
    {
      if Terminal(saved.state) {
        return;
      }
      if saved.state == COMPENSATING {
        CompensateSteps(saved, fate);
      } else {
        ExecuteSteps(saved, fate);
      }
    }
  }
}
