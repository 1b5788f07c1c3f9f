/** What concurrent callers of the idempotency middleware can rely on. */
module IdempotencyLaws {
  import opened Idempotency
  import opened IdempotencyProtocol

  // ---------------------------------------------------------------------------
  // Steps that leave clock, store and log alone
  // ---------------------------------------------------------------------------

  /** Call `id` moves on and one cache may change; it gains no claim it did not have. */
  lemma {:induction false} LocalStepKeeps(w: World, w': World, id: int)
    requires Inv(w) && id in w.calls && id in w'.calls && w'.calls == w.calls[id := w'.calls[id]]
    requires w'.now == w.now && w'.store == w.store && w'.log == w.log
    requires LocalsOk(w') && CallOk(w'.now, w'.store, w'.log, w'.calls[id])
    requires Owner(w'.now, w'.calls[id]) ==> Owner(w.now, w.calls[id]) && w'.calls[id].key == w.calls[id].key
    requires !w'.calls[id].phase.Executing?
    ensures Inv(w')
  {
    hide LogOk, StoreOk, LocalsOk, CallOk;
    assert forall i :: i in w'.calls && i != id ==> w'.calls[i] == w.calls[i];
    hide Owner;
  }

  lemma {:induction false} CachePut(w: World, process: string, key: string, r: Record)
    requires LocalsOk(w) && KeptOk(w.now, w.store, w.log, key, r)
    ensures LocalsOk(w.(locals := w.locals[process := LocalPut(LocalOf(w, process), key, r)]))
  {
    hide KeptOk;
    var local := LocalOf(w, process);
    var local' := LocalPut(local, key, r);
    assert LocalOk(w.now, w.store, w.log, local) ==> LocalOk(w.now, w.store, w.log, local');
  }

  lemma {:induction false} CacheDrop(w: World, process: string, local': Records)
    requires LocalsOk(w) && forall k :: k in local' ==> k in LocalOf(w, process) && local'[k] == LocalOf(w, process)[k]
    ensures LocalsOk(w.(locals := w.locals[process := local']))
  {
    hide KeptOk;
    assert LocalOk(w.now, w.store, w.log, LocalOf(w, process)) ==> LocalOk(w.now, w.store, w.log, local');
  }

  lemma {:induction false} StartedKeeps(w: World, id: int, fn: FnResult)
    requires Inv(w) && id in w.calls && w.calls[id].phase.Started?
    ensures Inv(ActStep(w, id, fn))
  {
    var c, w' := w.calls[id], ActStep(w, id, fn);
    var local := LocalOf(w, c.process);
    CacheDrop(w, c.process, Evicted(local, c.key, w.now));
    if Live(local, c.key, w.now).Some? {
      assert LocalOk(w.now, w.store, w.log, local);
      assert KeptOk(w.now, w.store, w.log, c.key, local[c.key]);
      assert Logged(w.log, c.key, local[c.key].digest, local[c.key].response, local[c.key].expiresAt);
    }
    hide LogOk, StoreOk, LocalOk, KeptOk, Logged;
    LocalStepKeeps(w, w', id);
  }

  lemma {:induction false} WarmingKeeps(w: World, id: int, fn: FnResult)
    requires Inv(w) && id in w.calls && (w.calls[id].phase.Warming? || w.calls[id].phase.Stored?)
    ensures Inv(ActStep(w, id, fn))
  {
    var c := w.calls[id];
    assert CallOk(w.now, w.store, w.log, c);
    CachePut(w, c.process, c.key, c.phase.held);
    assert Logged(w.log, c.key, c.digest, c.phase.held.response, c.phase.held.expiresAt);
    hide LogOk, StoreOk, LocalOk, KeptOk, Logged, LocalPut;
    LocalStepKeeps(w, ActStep(w, id, fn), id);
  }

  lemma {:induction false} ReleasingKeeps(w: World, id: int, fn: FnResult)
    requires Inv(w) && id in w.calls && w.calls[id].phase.Releasing?
    ensures Inv(ActStep(w, id, fn))
  {
    var c := w.calls[id];
    CacheDrop(w, c.process, LocalOf(w, c.process) - {c.key});
    hide LogOk, StoreOk, LocalOk, KeptOk, Logged;
    LocalStepKeeps(w, ActStep(w, id, fn), id);
  }

  lemma {:induction false} FailedKeeps(w: World, id: int)
    requires Inv(w) && id in w.calls && w.calls[id].phase.Executing?
    ensures Inv(ActStep(w, id, Fails))
  {
    var c := w.calls[id];
    assert CallOk(w.now, w.store, w.log, c);
    assert Owner(w.now, c) ==> forall i :: 0 <= i < |w.log| && w.log[i].key == c.key ==> w.log[i].expiresAt <= w.now by {
      assert forall i :: 0 <= i < |w.log| ==> Disjoint(w.log[i], Window(c, c.phase.claimedAt));
    }
    hide LogOk, StoreOk, LocalOk, KeptOk, Logged;
    LocalStepKeeps(w, ActStep(w, id, Fails), id);
  }

  /** A claim refused by a live record. */
  lemma {:induction false} RefusedKeeps(w: World, id: int, fn: FnResult)
    requires Inv(w) && id in w.calls && w.calls[id].phase.Missed? && Live(w.store, w.calls[id].key, w.now).Some?
    ensures Inv(ActStep(w, id, fn))
  {
    var c := w.calls[id];
    var r := w.store[c.key];
    assert !r.inProgress ==> KeptOk(w.now, w.store, w.log, c.key, r);
    hide LogOk, StoreOk, LocalOk, KeptOk, Logged;
    LocalStepKeeps(w, ActStep(w, id, fn), id);
  }

  // ---------------------------------------------------------------------------
  // Steps that change the store
  // ---------------------------------------------------------------------------

  /** Nothing completed and live is kept under `key`, by the store or by anybody else. */
  ghost predicate Unkept(now: int, store: Records, key: string) {
    key in store && !store[key].inProgress ==> store[key].expiresAt <= now
  }

  ghost predicate SameElsewhere(store: Records, store': Records, key: string) {
    forall k :: k != key ==> (k in store <==> k in store') && (k in store ==> store[k] == store'[k])
  }

  lemma {:induction false} KeptStays(now: int, store: Records, store': Records, log: seq<Execution>, key: string, k: string, r: Record)
    requires KeptOk(now, store, log, k, r) && Unkept(now, store, key) && SameElsewhere(store, store', key)
    ensures KeptOk(now, store', log, k, r)
  {
    hide Logged;
  }

  lemma {:induction false} OtherCallStays(now: int, store: Records, store': Records, log: seq<Execution>, key: string, c: Call)
    requires CallOk(now, store, log, c) && Unkept(now, store, key) && SameElsewhere(store, store', key)
    requires !(Owner(now, c) && c.key == key)
    ensures CallOk(now, store', log, c)
  {
    if c.phase.Warming? || c.phase.Stored? {
      KeptStays(now, store, store', log, key, c.key, c.phase.held);
    }
    hide Logged, KeptOk;
  }

  lemma {:induction false} LocalsStay(w: World, store': Records, key: string)
    requires LocalsOk(w) && Unkept(w.now, w.store, key) && SameElsewhere(w.store, store', key)
    ensures LocalsOk(w.(store := store'))
  {
    hide Unkept, SameElsewhere, KeptOk;
    forall p, k | p in w.locals && k in w.locals[p]
      ensures KeptOk(w.now, store', w.log, k, w.locals[p][k])
    {
      assert LocalOk(w.now, w.store, w.log, w.locals[p]);
      KeptStays(w.now, w.store, store', w.log, key, k, w.locals[p][k]);
    }
  }

  /** Call `id` changes the store under its own key, where it is the only one with a claim. */
  lemma {:induction false} StoreStepKeeps(w: World, w': World, id: int)
    requires Inv(w) && id in w.calls && id in w'.calls && w'.calls == w.calls[id := w'.calls[id]] && w'.calls[id].key == w.calls[id].key
    requires w'.now == w.now && w'.locals == w.locals && w'.log == w.log
    requires SameElsewhere(w.store, w'.store, w.calls[id].key) && Unkept(w.now, w.store, w.calls[id].key)
    requires forall i :: i in w.calls && i != id && w.calls[i].key == w.calls[id].key ==> !Owner(w.now, w.calls[i])
    requires StoreOk(w'.now, w'.store, w'.log) && CallOk(w'.now, w'.store, w'.log, w'.calls[id])
    requires w'.calls[id].phase.Executing? ==> w'.calls[id].phase.claimedAt == w.now
    requires w'.calls[id].phase.Executing? ==> forall i ::
      i in w.calls && i != id && w.calls[i].key == w.calls[id].key && w.calls[i].phase.Executing? ==> w.calls[i].expiresAt <= w.now
    ensures Inv(w')
  {
    var key := w.calls[id].key;
    LocalsStay(w, w'.store, key);
    hide LogOk, StoreOk, LocalOk, Owner, Unkept, SameElsewhere, CallOk, Live;
    assert LocalsOk(w');
    forall i | i in w'.calls && i != id ensures CallOk(w'.now, w'.store, w'.log, w'.calls[i]) {
      OtherCallStays(w.now, w.store, w'.store, w.log, key, w.calls[i]);
    }
    assert OneOwner(w'.now, w'.calls);
  }

  lemma {:induction false} OnlyOwner(w: World, id: int)
    requires Inv(w) && id in w.calls && (Owner(w.now, w.calls[id]) || Live(w.store, w.calls[id].key, w.now).None?)
    ensures forall i :: i in w.calls && i != id && w.calls[i].key == w.calls[id].key ==> !Owner(w.now, w.calls[i])
    ensures Unkept(w.now, w.store, w.calls[id].key)
  {
    hide LogOk, StoreOk, LocalsOk, KeptOk, Logged;
    assert CallOk(w.now, w.store, w.log, w.calls[id]);
    forall i | i in w.calls && i != id && w.calls[i].key == w.calls[id].key
      ensures !Owner(w.now, w.calls[i])
    {
      assert CallOk(w.now, w.store, w.log, w.calls[i]);
    }
  }

  lemma {:induction false} StoreOkWith(now: int, store: Records, store': Records, log: seq<Execution>, key: string)
    requires StoreOk(now, store, log) && SameElsewhere(store, store', key)
    requires forall i :: 0 <= i < |log| && log[i].key == key ==> Remembered(now, store', log[i])
    requires key in store' && !store'[key].inProgress ==>
      Logged(log, key, store'[key].digest, store'[key].response, store'[key].expiresAt)
    ensures StoreOk(now, store', log)
  {
    hide Logged;
  }

  lemma {:induction false} ClaimKeeps(w: World, id: int, fn: FnResult)
    requires Inv(w) && id in w.calls && w.calls[id].phase.Missed? && Live(w.store, w.calls[id].key, w.now).None?
    ensures Inv(ActStep(w, id, fn))
  {
    var c, w' := w.calls[id], ActStep(w, id, fn);
    OnlyOwner(w, id);
    assert forall i :: 0 <= i < |w.log| && w.log[i].key == c.key ==> Remembered(w.now, w.store, w.log[i]);
    assert forall i :: 0 <= i < |w.log| && w.log[i].key == c.key ==> w.log[i].expiresAt <= w.now;
    StoreOkWith(w.now, w.store, w'.store, w.log, c.key);
    hide LogOk, StoreOk, LocalsOk, KeptOk, Logged, Remembered;
    StoreStepKeeps(w, w', id);
  }

  /** A key that is nobody else's is not kept by anybody else either. */
  lemma {:induction false} NotForeign(w: World, id: int)
    requires Inv(w) && id in w.calls && !Foreign(w, id)
    ensures forall i :: i in w.calls && i != id && w.calls[i].key == w.calls[id].key ==> !Owner(w.now, w.calls[i])
    ensures forall i :: 0 <= i < |w.log| && w.log[i].key == w.calls[id].key ==> w.log[i].expiresAt <= w.now
    ensures Unkept(w.now, w.store, w.calls[id].key)
  {
    var key := w.calls[id].key;
    hide CallsOk, LocalsOk, Owner;
    if key in w.store && !w.store[key].inProgress {
      var i :| 0 <= i < |w.log| && Matches(w.log[i], key, w.store[key].digest, w.store[key].response, w.store[key].expiresAt);
    }
  }

  lemma {:induction false} ReleaseKeeps(w: World, id: int, fn: FnResult)
    requires Inv(w) && id in w.calls && w.calls[id].phase.Failing? && (Owner(w.now, w.calls[id]) || !Foreign(w, id))
    ensures Inv(ActStep(w, id, fn))
  {
    var c, w' := w.calls[id], ActStep(w, id, fn);
    if Owner(w.now, c) { OnlyOwner(w, id); } else { NotForeign(w, id); }
    assert CallOk(w.now, w.store, w.log, c);
    StoreOkWith(w.now, w.store, w'.store, w.log, c.key);
    hide LogOk, StoreOk, LocalsOk, KeptOk, Logged, Remembered, Foreign;
    StoreStepKeeps(w, w', id);
  }

  /** The one execution whose window is open is the owner's. */
  lemma {:induction false} OpenExecutionIs(w: World, id: int, i: nat)
    requires Inv(w) && id in w.calls && w.calls[id].phase.Ran? && Owner(w.now, w.calls[id])
    requires i < |w.log| && w.log[i].key == w.calls[id].key && w.log[i].expiresAt > w.now
    ensures var c := w.calls[id]; Matches(w.log[i], c.key, c.digest, c.phase.response, c.expiresAt)
  {
    var c := w.calls[id];
    assert CallOk(w.now, w.store, w.log, c);
    var k :| 0 <= k < |w.log| && Matches(w.log[k], c.key, c.digest, c.phase.response, c.expiresAt);
    assert i < k ==> Disjoint(w.log[i], w.log[k]);
    assert k < i ==> Disjoint(w.log[k], w.log[i]);
  }

  lemma {:induction false} PutKeeps(w: World, id: int, fn: FnResult)
    requires Inv(w) && id in w.calls && w.calls[id].phase.Ran? && (Owner(w.now, w.calls[id]) || !Foreign(w, id))
    ensures Inv(ActStep(w, id, fn))
  {
    var c, w' := w.calls[id], ActStep(w, id, fn);
    if Owner(w.now, c) { OnlyOwner(w, id); } else { NotForeign(w, id); }
    assert CallOk(w.now, w.store, w.log, c);
    forall i | 0 <= i < |w.log| && w.log[i].key == c.key ensures Remembered(w.now, w'.store, w.log[i]) {
      if w.log[i].expiresAt > w.now { OpenExecutionIs(w, id, i); }
    }
    hide LogOk, LocalsOk, Logged, Remembered, Foreign;
    StoreOkWith(w.now, w.store, w'.store, w.log, c.key);
    hide StoreOk;
    StoreStepKeeps(w, w', id);
  }

  /** A late write is harmless exactly when the key is nobody else's: otherwise it leaves the key to be
      claimed anew while another claim on it is live or another window open. */
  lemma {:induction false} LateWriteHarmlessIff(w: World, id: int, fn: FnResult)
    requires Inv(w) && id in w.calls && (w.calls[id].phase.Ran? || w.calls[id].phase.Failing?) && w.now >= w.calls[id].expiresAt
    ensures Inv(ActStep(w, id, fn)) <==> !Foreign(w, id)
    ensures Live(ActStep(w, id, fn).store, w.calls[id].key, w.now).None?
  {
    var c, w' := w.calls[id], ActStep(w, id, fn);
    if !Foreign(w, id) {
      if c.phase.Ran? { PutKeeps(w, id, fn); } else { ReleaseKeeps(w, id, fn); }
    } else if i :| i in w.calls && i != id && w.calls[i].key == c.key && Owner(w.now, w.calls[i]) {
      assert !CallOk(w'.now, w'.store, w'.log, w'.calls[i]);
    } else {
      var i :| 0 <= i < |w.log| && w.log[i].key == c.key && w.log[i].expiresAt > w.now;
      assert !Remembered(w'.now, w'.store, w'.log[i]);
    }
  }

  // ---------------------------------------------------------------------------
  // The step that completes an execution
  // ---------------------------------------------------------------------------

  lemma {:induction false} LoggedStays(log: seq<Execution>, x: Execution, key: string, digest: string, response: string, expiresAt: int)
    requires Logged(log, key, digest, response, expiresAt)
    ensures Logged(log + [x], key, digest, response, expiresAt)
  {
    var i :| 0 <= i < |log| && Matches(log[i], key, digest, response, expiresAt);
    assert (log + [x])[i] == log[i];
  }

  lemma {:induction false} CallLogged(now: int, store: Records, log: seq<Execution>, x: Execution, c: Call)
    requires CallOk(now, store, log, c)
    requires c.phase.Executing? ==> Disjoint(x, Window(c, c.phase.claimedAt))
    requires c.phase.Failing? && Owner(now, c) && x.key == c.key ==> x.expiresAt <= now
    ensures CallOk(now, store, log + [x], c)
  {
    if c.phase.Ran? {
      LoggedStays(log, x, c.key, c.digest, c.phase.response, c.expiresAt);
    }
    if c.phase.Warming? || c.phase.Stored? {
      var r := c.phase.held;
      LoggedStays(log, x, c.key, r.digest, r.response, r.expiresAt);
    }
    if c.phase.Finished? && c.phase.answer.Response? {
      var t :| Logged(log, c.key, c.digest, c.phase.answer.response, t);
      LoggedStays(log, x, c.key, c.digest, c.phase.answer.response, t);
    }
    hide Logged;
  }

  lemma {:induction false} StoreLogged(now: int, store: Records, log: seq<Execution>, x: Execution)
    requires StoreOk(now, store, log) && Remembered(now, store, x)
    ensures StoreOk(now, store, log + [x])
  {
    hide Remembered, Logged;
    forall key | key in store && !store[key].inProgress
      ensures Logged(log + [x], key, store[key].digest, store[key].response, store[key].expiresAt)
    {
      LoggedStays(log, x, key, store[key].digest, store[key].response, store[key].expiresAt);
    }
  }

  lemma {:induction false} LocalsLogged(w: World, x: Execution)
    requires LocalsOk(w)
    ensures LocalsOk(w.(log := w.log + [x]))
  {
    hide Logged;
    forall p, k | p in w.locals && k in w.locals[p]
      ensures KeptOk(w.now, w.store, w.log + [x], k, w.locals[p][k])
    {
      assert LocalOk(w.now, w.store, w.log, w.locals[p]);
      var r := w.locals[p][k];
      assert KeptOk(w.now, w.store, w.log, k, r);
      LoggedStays(w.log, x, k, r.digest, r.response, r.expiresAt);
    }
  }

  lemma {:induction false} LogExtends(now: int, log: seq<Execution>, x: Execution)
    requires LogOk(now, log) && x.claimedAt <= now && forall i :: 0 <= i < |log| ==> Disjoint(log[i], x)
    ensures LogOk(now, log + [x])
  {
  }

  lemma {:induction false} OtherCallLogged(w: World, id: int, x: Execution, i: int)
    requires Inv(w) && id in w.calls && w.calls[id].phase.Executing? && i in w.calls && i != id
    requires var c := w.calls[id]; x.key == c.key && x.claimedAt == c.phase.claimedAt && x.expiresAt == c.expiresAt
    ensures CallOk(w.now, w.store, w.log + [x], w.calls[i])
  {
    var c, d := w.calls[id], w.calls[i];
    hide LogOk, StoreOk, LocalsOk;
    assert CallOk(w.now, w.store, w.log, d);
    assert d.phase.Executing? ==> Disjoint(Window(c, c.phase.claimedAt), Window(d, d.phase.claimedAt));
    assert Owner(w.now, d) && d.key == c.key ==> !Owner(w.now, c);
    hide CallOk;
    CallLogged(w.now, w.store, w.log, x, d);
  }

  /** A success is logged, within the window of its claim or after it. */
  lemma {:induction false} RanKeeps(w: World, id: int, response: string)
    requires Inv(w) && id in w.calls && w.calls[id].phase.Executing?
    ensures Inv(ActStep(w, id, Succeeds(response)))
  {
    var c, w' := w.calls[id], ActStep(w, id, Succeeds(response));
    var x := Execution(c.key, c.digest, response, c.phase.claimedAt, c.expiresAt);
    assert CallOk(w.now, w.store, w.log, c);
    assert forall i :: 0 <= i < |w.log| && Disjoint(w.log[i], Window(c, c.phase.claimedAt)) ==> Disjoint(w.log[i], x);
    LogExtends(w.now, w.log, x);
    StoreLogged(w.now, w.store, w.log, x);
    LocalsLogged(w, x);
    assert w'.log[|w.log|] == x;
    assert Logged(w'.log, c.key, c.digest, response, c.expiresAt);
    assert CallOk(w'.now, w'.store, w'.log, w'.calls[id]);
    hide LogOk, StoreOk, LocalOk, Logged, KeptOk;
    assert LocalsOk(w');
    forall i | i in w'.calls ensures CallOk(w'.now, w'.store, w'.log, w'.calls[i]) {
      if i != id { OtherCallLogged(w, id, x, i); }
    }
    hide CallOk;
    assert OneOwner(w'.now, w'.calls);
  }

  // ---------------------------------------------------------------------------
  // Every step keeps the invariant
  // ---------------------------------------------------------------------------

  lemma {:induction false} ActKeeps(w: World, id: int, fn: FnResult)
    requires Inv(w) && Enabled(w, Act(id, fn)) && Timely(w, Act(id, fn))
    ensures Inv(ActStep(w, id, fn))
  {
    hide Inv, ActStep;
    match w.calls[id].phase
    case Started => StartedKeeps(w, id, fn);
    case Missed => if Live(w.store, w.calls[id].key, w.now).Some? { RefusedKeeps(w, id, fn); } else { ClaimKeeps(w, id, fn); }
    case Warming(_) => WarmingKeeps(w, id, fn);
    case Stored(_) => WarmingKeeps(w, id, fn);
    case Executing(_) => if fn.Fails? { FailedKeeps(w, id); } else { RanKeeps(w, id, fn.response); }
    case Ran(_, _) => PutKeeps(w, id, fn);
    case Failing => ReleaseKeeps(w, id, fn);
    case Releasing => ReleasingKeeps(w, id, fn);
  }

  lemma {:induction false} LaterCallOk(now: int, later: int, store: Records, log: seq<Execution>, c: Call)
    requires CallOk(now, store, log, c) && now <= later
    ensures CallOk(later, store, log, c)
  {
    hide Logged;
  }

  lemma {:induction false} TickKeeps(w: World, seconds: nat)
    requires Inv(w)
    ensures Inv(w.(now := w.now + seconds))
  {
    var w' := w.(now := w.now + seconds);
    assert LocalsOk(w') by {
      hide Logged;
      forall p | p in w.locals ensures LocalOk(w'.now, w.store, w.log, w.locals[p]) {
        assert LocalOk(w.now, w.store, w.log, w.locals[p]);
      }
    }
    assert StoreOk(w'.now, w.store, w.log) by { hide Logged; }
    hide StoreOk, LocalsOk;
    forall i | i in w.calls ensures CallOk(w'.now, w.store, w.log, w.calls[i]) {
      LaterCallOk(w.now, w'.now, w.store, w.log, w.calls[i]);
    }
  }

  lemma {:induction false} StepKeeps(w: World, e: Event)
    requires Inv(w) && Enabled(w, e) && Timely(w, e)
    ensures Inv(Step(w, e))
  {
    match e
    case Act(id, fn) => ActKeeps(w, id, fn);
    case Tick(seconds) => TickKeeps(w, seconds);
    case Begin(_, _, _, _, _) => hide LogOk, StoreOk, LocalsOk, Logged, KeptOk;
    case Restart(_) => hide LogOk, StoreOk, LocalOk, CallOk, Owner;
  }

  lemma {:induction false} RunKeeps(w: World, es: seq<Event>)
    requires Inv(w) && Runs(w, es)
    ensures Inv(StepAll(w, es))
    decreases |es|
  {
    hide Inv, Step;
    if es != [] {
      StepKeeps(w, es[0]);
      RunKeeps(Step(w, es[0]), es[1..]);
    }
  }

  // ---------------------------------------------------------------------------
  // Main results
  // ---------------------------------------------------------------------------

  /** Successful executions of one key have disjoint windows: at most one succeeds per window. */
  lemma {:induction false} OneExecutionPerWindow(es: seq<Event>, i: nat, k: nat)
    requires Runs(START, es) && i < |StepAll(START, es).log| && k < |StepAll(START, es).log| && i != k
    ensures Disjoint(StepAll(START, es).log[i], StepAll(START, es).log[k])
  {
    RunKeeps(START, es);
    hide StoreOk, CallsOk, LocalsOk, OneOwner;
    var log := StepAll(START, es).log;
    if i < k { assert Disjoint(log[i], log[k]); } else { assert Disjoint(log[k], log[i]); }
  }

  /** Every response anybody got is that of an execution of the same key with the same payload. */
  lemma {:induction false} ResponsesAreExecutions(es: seq<Event>, id: int)
    requires Runs(START, es) && id in StepAll(START, es).calls
    ensures var w := StepAll(START, es);
      var c := w.calls[id];
      c.phase.Finished? && c.phase.answer.Response? ==>
        exists i, t :: 0 <= i < |w.log| && Matches(w.log[i], c.key, c.digest, c.phase.answer.response, t)
  {
    RunKeeps(START, es);
    var w := StepAll(START, es);
    var c := w.calls[id];
    assert CallOk(w.now, w.store, w.log, c);
    if c.phase.Finished? && c.phase.answer.Response? {
      var t :| Logged(w.log, c.key, c.digest, c.phase.answer.response, t);
      var i :| 0 <= i < |w.log| && Matches(w.log[i], c.key, c.digest, c.phase.answer.response, t);
    }
  }

  /** While the window of an execution is open, no caller starts another one: a different payload is
      refused, the same payload waits or gets the response. */
  lemma {:induction false} OpenWindowDecides(es: seq<Event>, i: nat, id: int, fn: FnResult)
    requires Runs(START, es)
    requires var w := StepAll(START, es);
      i < |w.log| && w.now < w.log[i].expiresAt && id in w.calls && w.calls[id].key == w.log[i].key
    ensures var w := StepAll(START, es);
      var c, x, after := w.calls[id], w.log[i], ActStep(w, id, fn).calls[id].phase;
      && (c.phase.Started? ==>
            after == Missed || after == Finished(if c.digest == x.digest then Response(x.response) else Conflict))
      && (c.phase.Missed? ==>
            if c.digest != x.digest then after == Finished(Conflict)
            else after == Finished(InProgress) || (after.Warming? && after.held.response == x.response))
  {
    RunKeeps(START, es);
    var w := StepAll(START, es);
    var c, x := w.calls[id], w.log[i];
    hide Runs, StepAll;
    assert Remembered(w.now, w.store, x);
    if c.phase.Started? && Live(LocalOf(w, c.process), c.key, w.now).Some? {
      assert LocalOk(w.now, w.store, w.log, LocalOf(w, c.process));
      assert KeptOk(w.now, w.store, w.log, c.key, LocalOf(w, c.process)[c.key]);
    }
    hide LogOk, StoreOk, CallsOk, LocalsOk, OneOwner, Logged;
  }

  lemma {:induction false} ClaimedKeyUncached(w: World, process: string, key: string)
    requires LocalsOk(w) && key in w.store && w.store[key].inProgress
    ensures Live(LocalOf(w, process), key, w.now).None?
  {
    if key in LocalOf(w, process) {
      assert LocalOk(w.now, w.store, w.log, LocalOf(w, process));
      assert KeptOk(w.now, w.store, w.log, key, LocalOf(w, process)[key]);
    }
  }

  /** While another call is still executing under its claim, no caller starts a second execution either:
      no cache answers, a different payload conflicts, the same payload is told to wait. */
  lemma {:induction false} LiveClaimDecides(es: seq<Event>, owner: int, id: int, fn: FnResult)
    requires Runs(START, es)
    requires var w := StepAll(START, es);
      && owner in w.calls && id in w.calls && id != owner
      && Owner(w.now, w.calls[owner]) && w.calls[id].key == w.calls[owner].key
    ensures var w := StepAll(START, es);
      var c, after := w.calls[id], ActStep(w, id, fn).calls[id].phase;
      && (c.phase.Started? ==> after == Missed)
      && (c.phase.Missed? ==>
            && after == Finished(if c.digest != w.calls[owner].digest then Conflict else InProgress)
            && ActStep(w, id, fn).store == w.store)
  {
    RunKeeps(START, es);
    var w := StepAll(START, es);
    var c := w.calls[id];
    hide Runs, StepAll;
    assert CallOk(w.now, w.store, w.log, w.calls[owner]);
    assert c.key in w.store && w.store[c.key].inProgress;
    ClaimedKeyUncached(w, c.process, c.key);
    hide LogOk, StoreOk, CallsOk, LocalsOk, OneOwner, Logged;
  }

  /** The cache never says anything the store would not: a live local record is the store's record, so a
      caller answered from the cache gets the answer the claim would have given. */
  lemma {:induction false} CachedIsUncached(es: seq<Event>, process: string, key: string, digest: string, claim: Record)
    requires Runs(START, es)
    ensures var w := StepAll(START, es);
      var hit := Live(LocalOf(w, process), key, w.now);
      hit.Some? ==>
        PutIfAbsent(w.store, key, claim, w.now) == Claimed(w.store, hit) &&
        AnswerFrom(hit.value, digest) == (if hit.value.digest != digest then Conflict else Response(hit.value.response))
  {
    RunKeeps(START, es);
    var w := StepAll(START, es);
    if Live(LocalOf(w, process), key, w.now).Some? {
      assert LocalOk(w.now, w.store, w.log, LocalOf(w, process));
      assert KeptOk(w.now, w.store, w.log, key, LocalOf(w, process)[key]);
    }
  }

  // ---------------------------------------------------------------------------
  // A call alone is `execute`
  // ---------------------------------------------------------------------------

  /** The rest of call `id` with nothing interleaved; `fn` takes `took` seconds. */
  function Solo(w: World, id: int, took: nat, fn: FnResult): World {
    var w1 := ActStep(w, id, fn);
    if InPhase(w1, id, Missed) then SoloClaim(w1, id, took, fn) else w1
  }

  function SoloClaim(w: World, id: int, took: nat, fn: FnResult): World {
    var w1 := ActStep(w, id, fn);
    if InPhase(w1, id, Executing(w.now)) then SoloRun(w1.(now := w.now + took), id, fn)
    else if id in w1.calls && w1.calls[id].phase.Warming? then ActStep(w1, id, fn)
    else w1
  }

  function SoloRun(w: World, id: int, fn: FnResult): World {
    ActStep(ActStep(ActStep(w, id, fn), id, fn), id, fn)
  }

  predicate InPhase(w: World, id: int, phase: Phase) {
    id in w.calls && w.calls[id].phase == phase
  }

  /** Call `id` is done and has done what `r` says. */
  ghost predicate Did(w: World, done: World, id: int, process: string, executions: nat, r: Executed) {
    && InPhase(done, id, Finished(r.answer))
    && done.now == r.side.now && done.store == r.side.store && LocalOf(done, process) == r.side.local
    && (|done.log| > |w.log| <==> r.side.executions > executions)
  }

  ghost function SideOf(w: World, process: string, executions: nat, hits: nat): Side {
    Side(w.now, w.store, LocalOf(w, process), executions, hits)
  }

  lemma {:induction false} SoloRuns(w: World, id: int, took: nat, fn: FnResult, executions: nat, hits: nat)
    requires id in w.calls && w.calls[id].phase.Executing?
    ensures var c := w.calls[id];
      Did(w, SoloRun(w.(now := w.now + took), id, fn), id, c.process, executions,
        Perform(SideOf(w, c.process, executions, hits), c.key, c.digest, c.expiresAt, took, fn))
  {
    hide LocalPut;
    var c, w1 := w.calls[id], w.(now := w.now + took);
    var w2 := ActStep(w1, id, fn);
    var w3 := ActStep(w2, id, fn);
    if fn.Fails? {
      assert w2.calls[id] == c.(phase := Failing);
      assert w3.calls[id] == c.(phase := Releasing);
    } else {
      assert w2.calls[id] == c.(phase := Ran(fn.response, c.phase.claimedAt));
      assert w3.calls[id] == c.(phase := Stored(Record(c.digest, fn.response, c.expiresAt, false)));
    }
  }

  /** What `execute` does after a miss in the cache. */
  function ExecuteMissed(s: Side, key: string, digest: string, expiresAt: int, took: nat, fn: FnResult): Executed {
    var claim := PutIfAbsent(s.store, key, Record(digest, "", expiresAt, true), s.now);
    match claim.existing
    case None => Perform(s.(store := claim.store), key, digest, expiresAt, took, fn)
    case Some(r) =>
      var answer := AnswerFrom(r, digest);
      Executed(s.(local := if answer.Response? then LocalPut(s.local, key, r) else s.local), answer)
  }

  lemma {:induction false} SoloClaims(w: World, id: int, took: nat, fn: FnResult, executions: nat, hits: nat)
    requires id in w.calls && w.calls[id].phase.Missed?
    ensures var c := w.calls[id];
      Did(w, SoloClaim(w, id, took, fn), id, c.process, executions,
        ExecuteMissed(SideOf(w, c.process, executions, hits), c.key, c.digest, c.expiresAt, took, fn))
  {
    hide LocalPut, Perform, SoloRun;
    var c, w1 := w.calls[id], ActStep(w, id, fn);
    if Live(w.store, c.key, w.now).None? {
      assert w1.calls[id] == c.(phase := Executing(w.now));
      SoloRuns(w1, id, took, fn, executions, hits);
    }
  }

  /** The interleaved steps of one call, run without interruption, are `execute`. */
  lemma {:induction false} SoloIsExecute(w: World, id: int, took: nat, fn: FnResult, executions: nat, hits: nat)
    requires id in w.calls && w.calls[id].phase.Started? && w.calls[id].key != ""
    ensures var c := w.calls[id];
      Did(w, Solo(w, id, took, fn), id, c.process, executions,
        Execute(SideOf(w, c.process, executions, hits), c.key, c.digest, c.expiresAt - w.now, took, fn))
  {
    hide LocalPut, Perform, SoloClaim;
    var c, w1 := w.calls[id], ActStep(w, id, fn);
    if Live(LocalOf(w, c.process), c.key, w.now).None? {
      assert w1.calls[id] == c.(phase := Missed);
      SoloClaims(w1, id, took, fn, executions, hits);
    }
  }

  // ---------------------------------------------------------------------------
  // Why nobody may write over somebody else's key
  // ---------------------------------------------------------------------------

  const SLOW := Call("p", "k", "a", 1, Started)
  const NEXT := Call("q", "k", "b", 101, Started)
  const THIRD := Call("r", "k", "c", 101, Started)

  /** Call 1 claims a window of one second; when it has passed call 2 claims a window of a hundred. */
  function TwoClaims(): World {
    var w1 := Step(START, Begin(1, "p", "k", "a", 1));
    var w2 := ActStep(ActStep(w1, 1, Fails), 1, Fails);
    var w3 := Step(Step(w2, Tick(1)), Begin(2, "q", "k", "b", 100));
    ActStep(ActStep(w3, 2, Fails), 2, Fails)
  }

  lemma {:induction false} TwoClaimsIs()
    ensures TwoClaims() == World(
      1, map["k" := Record("b", "", 101, true)], map["p" := map[], "q" := map[]],
      map[1 := SLOW.(phase := Executing(0)), 2 := NEXT.(phase := Executing(1))], [])
  {
    var w1 := Step(START, Begin(1, "p", "k", "a", 1));
    assert w1 == World(0, map[], map[], map[1 := SLOW], []);
    var w2 := ActStep(w1, 1, Fails);
    assert w2 == World(0, map[], map["p" := map[]], map[1 := SLOW.(phase := Missed)], []);
    var w3 := ActStep(w2, 1, Fails);
    assert w3 == World(0, map["k" := Record("a", "", 1, true)], map["p" := map[]], map[1 := SLOW.(phase := Executing(0))], []);
    var w4 := Step(Step(w3, Tick(1)), Begin(2, "q", "k", "b", 100));
    var w5 := ActStep(w4, 2, Fails);
    assert w5.calls == map[1 := SLOW.(phase := Executing(0)), 2 := NEXT.(phase := Missed)];
  }

  /** The key is free in the store, call 2 still executes under its claim, and process r knows nothing. */
  ghost predicate FreedTooEarly(w: World) {
    && w.now == 1 && Live(w.store, "k", 1).None? && 3 !in w.calls && "r" !in w.locals
    && 2 in w.calls && w.calls[2] == NEXT.(phase := Executing(1))
  }

  /** Call 3 claims the key and executes, and call 2 completes. */
  function ThirdExecutes(w: World): World {
    var w1 := Step(w, Begin(3, "r", "k", "c", 100));
    var w2 := ActStep(ActStep(w1, 3, Fails), 3, Fails);
    ActStep(ActStep(w2, 3, Succeeds("x")), 2, Succeeds("y"))
  }

  lemma {:induction false} ThirdClaims(w: World)
    requires FreedTooEarly(w)
    ensures var w1 := Step(w, Begin(3, "r", "k", "c", 100));
      var w2 := ActStep(ActStep(w1, 3, Fails), 3, Fails);
      && 3 in w2.calls && w2.calls[3] == THIRD.(phase := Executing(1)) && w2.log == w.log
      && 2 in w2.calls && w2.calls[2] == NEXT.(phase := Executing(1))
  {
    var w1 := Step(w, Begin(3, "r", "k", "c", 100));
    assert w1.calls[3] == THIRD && w1.calls[2] == w.calls[2] && w1.log == w.log;
    var w2 := ActStep(w1, 3, Fails);
    assert w2.calls[3] == THIRD.(phase := Missed) && w2.calls[2] == w.calls[2] && w2.log == w.log && w2.store == w.store;
  }

  lemma {:induction false} ThirdOverlaps(w: World)
    requires FreedTooEarly(w)
    ensures var log, n := ThirdExecutes(w).log, |w.log|; |log| == n + 2 && !Disjoint(log[n], log[n + 1])
  {
    ThirdClaims(w);
    var w1 := Step(w, Begin(3, "r", "k", "c", 100));
    var w2 := ActStep(ActStep(w1, 3, Fails), 3, Fails);
    var w3 := ActStep(w2, 3, Succeeds("x"));
    assert w3.log == w.log + [Execution("k", "c", "x", 1, 101)] && w3.calls[2] == NEXT.(phase := Executing(1));
    assert ActStep(w3, 2, Succeeds("y")).log == w3.log + [Execution("k", "b", "y", 1, 101)];
  }

  /** Two executions in overlapping windows: call 1 fails and, its window long over, releases the claim of
      call 2. */
  lemma {:induction false} LateReleaseExecutesTwice()
    ensures var w := TwoClaims();
      var log := ThirdExecutes(ActStep(ActStep(w, 1, Fails), 1, Fails)).log;
      |log| == 2 && !Disjoint(log[0], log[1])
  {
    TwoClaimsIs();
    hide TwoClaims;
    var w := TwoClaims();
    var w1 := ActStep(ActStep(w, 1, Fails), 1, Fails);
    assert w1.store == map[] && w1.calls == map[1 := SLOW.(phase := Releasing), 2 := NEXT.(phase := Executing(1))];
    assert FreedTooEarly(w1) && w1.log == [];
    hide ThirdExecutes, ActStep;
    ThirdOverlaps(w1);
  }

  /** The same when call 1 succeeds and, its window long over, stores its expired response over the claim. */
  lemma {:induction false} LateStoreExecutesTwice()
    ensures var w := TwoClaims();
      var log := ThirdExecutes(ActStep(ActStep(w, 1, Succeeds("late")), 1, Fails)).log;
      |log| == 3 && !Disjoint(log[1], log[2])
  {
    TwoClaimsIs();
    hide TwoClaims;
    var w := TwoClaims();
    var w1 := ActStep(w, 1, Succeeds("late"));
    assert w1.calls == map[1 := SLOW.(phase := Ran("late", 0)), 2 := NEXT.(phase := Executing(1))];
    assert w1.log == [Execution("k", "a", "late", 0, 1)];
    var w2 := ActStep(w1, 1, Fails);
    assert w2.store == map["k" := Record("a", "late", 1, false)] && w2.calls[2] == NEXT.(phase := Executing(1)) && w2.log == w1.log;
    assert FreedTooEarly(w2);
    hide ThirdExecutes, ActStep;
    ThirdOverlaps(w2);
  }

  /** Among concurrent calls: once the failed call has released its claim, the next claim on the key is granted. */
  lemma {:induction false} ReleaseFreesKey(w: World, id: int, other: int, fn: FnResult, fn': FnResult)
    requires id in w.calls && other in w.calls && id != other && w.calls[id].phase.Failing?
    requires w.calls[other].phase.Missed? && w.calls[other].key == w.calls[id].key
    ensures var w1 := ActStep(w, id, fn);
      var w2 := ActStep(w1, other, fn');
      && w2.calls[other].phase == Executing(w.now)
      && w.calls[id].key in w2.store && w2.store[w.calls[id].key].inProgress && w2.store[w.calls[id].key].digest == w.calls[other].digest
  {
    var w1 := ActStep(w, id, fn);
    assert w1.calls[other] == w.calls[other] && w.calls[id].key !in w1.store;
    hide LocalPut, Evicted;
  }
}
