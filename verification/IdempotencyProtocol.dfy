/** Any number of callers, in any number of processes with a local cache each, interleaved step by step
    over one store (`ledger/fundsflow/idempotency.py`). A process may restart at any step: its cache and
    its calls are gone, what they claimed stays in the store. */
module IdempotencyProtocol {
  import opened Idempotency

  datatype Phase =
    | Started | Missed | Warming(held: Record)
    | Executing(claimedAt: int) | Ran(response: string, claimedAt: int) | Stored(held: Record)
    | Failing | Releasing
    | Finished(answer: Answer)

  datatype Call = Call(process: string, key: string, digest: string, expiresAt: int, phase: Phase)

  /** A successful execution of `fn`, with the window its claim was granted. */
  datatype Execution = Execution(key: string, digest: string, response: string, claimedAt: int, expiresAt: int)

  datatype World = World(now: int, store: Records, locals: map<string, Records>, calls: map<int, Call>, log: seq<Execution>)

  datatype Event =
    | Begin(id: int, process: string, key: string, digest: string, ttl: int)
    | Act(id: int, fn: FnResult)
    | Tick(seconds: nat)
    | Restart(process: string)

  function LocalOf(w: World, process: string): Records {
    if process in w.locals then w.locals[process] else map[]
  }

  predicate Enabled(w: World, e: Event) {
    match e
    case Begin(id, _, key, _, _) => id !in w.calls && key != ""
    case Act(id, _) => id in w.calls && !w.calls[id].phase.Finished?
    case Tick(_) => true
    case Restart(_) => true
  }

  /** The key of call `id` is somebody else's: another call has a live claim on it, or the window of a
      finished execution of it is still open. */
  ghost predicate Foreign(w: World, id: int)
    requires id in w.calls
  {
    || (exists i :: i in w.calls && i != id && w.calls[i].key == w.calls[id].key && Owner(w.now, w.calls[i]))
    || (exists i :: 0 <= i < |w.log| && w.log[i].key == w.calls[id].key && w.log[i].expiresAt > w.now)
  }

  /** A call that stores its response or releases its claim does so within its window, or late but while
      the key is nobody else's. An execution itself may take as long as it likes. */
  ghost predicate Timely(w: World, e: Event)
    requires Enabled(w, e)
  {
    e.Act? ==>
      var c := w.calls[e.id];
      c.phase.Ran? || c.phase.Failing? ==> w.now < c.expiresAt || !Foreign(w, e.id)
  }

  function Move(w: World, id: int, phase: Phase): World
    requires id in w.calls
  {
    w.(calls := w.calls[id := w.calls[id].(phase := phase)])
  }

  /** The next atomic step of call `id`. */
  function ActStep(w: World, id: int, fn: FnResult): World {
    if id !in w.calls then w else CallStep(w, id, w.calls[id], LocalOf(w, w.calls[id].process), fn)
  }

  function CallStep(w: World, id: int, c: Call, local: Records, fn: FnResult): World
    requires id in w.calls && w.calls[id] == c
  {
    match c.phase
    case Started =>
      var w1 := w.(locals := w.locals[c.process := Evicted(local, c.key, w.now)]);
      (match Live(local, c.key, w.now)
       case Some(r) => Move(w1, id, Finished(if r.digest != c.digest then Conflict else Response(r.response)))
       case None => Move(w1, id, Missed))
    case Missed =>
      var claim := PutIfAbsent(w.store, c.key, Record(c.digest, "", c.expiresAt, true), w.now);
      (match claim.existing
       case None => Move(w.(store := claim.store), id, Executing(w.now))
       case Some(r) =>
         var answer := AnswerFrom(r, c.digest);
         Move(w, id, if answer.Response? then Warming(r) else Finished(answer)))
    case Warming(r) =>
      Move(w.(locals := w.locals[c.process := LocalPut(local, c.key, r)]), id, Finished(Response(r.response)))
    case Executing(at) =>
      (match fn
       case Fails => Move(w, id, Failing)
       case Succeeds(response) =>
         Move(w.(log := w.log + [Execution(c.key, c.digest, response, at, c.expiresAt)]), id, Ran(response, at)))
    case Ran(response, _) =>
      var r := Record(c.digest, response, c.expiresAt, false);
      Move(w.(store := w.store[c.key := r]), id, Stored(r))
    case Stored(r) =>
      Move(w.(locals := w.locals[c.process := LocalPut(local, c.key, r)]), id, Finished(Response(r.response)))
    case Failing => Move(w.(store := w.store - {c.key}), id, Releasing)
    case Releasing => Move(w.(locals := w.locals[c.process := local - {c.key}]), id, Finished(Raises))
    case Finished(_) => w
  }

  function Step(w: World, e: Event): World {
    if !Enabled(w, e) then w else
    match e
    case Begin(id, process, key, digest, ttl) =>
      w.(calls := w.calls[id := Call(process, key, digest, w.now + ttl, Started)])
    case Act(id, fn) => ActStep(w, id, fn)
    case Tick(seconds) => w.(now := w.now + seconds)
    case Restart(process) =>
      w.(locals := w.locals - {process}, calls := map id | id in w.calls && w.calls[id].process != process :: w.calls[id])
  }

  const START := World(0, map[], map[], map[], [])

  /** Runs in which nobody writes over a key that is somebody else's. */
  ghost predicate Runs(w: World, es: seq<Event>)
    decreases |es|
  {
    es == [] || (Enabled(w, es[0]) && Timely(w, es[0]) && Runs(Step(w, es[0]), es[1..]))
  }

  function StepAll(w: World, es: seq<Event>): World
    decreases |es|
  {
    if es == [] then w else StepAll(Step(w, es[0]), es[1..])
  }

  // ---------------------------------------------------------------------------
  // Invariant
  // ---------------------------------------------------------------------------

  predicate Logged(log: seq<Execution>, key: string, digest: string, response: string, expiresAt: int) {
    exists i :: 0 <= i < |log| && Matches(log[i], key, digest, response, expiresAt)
  }

  predicate Matches(x: Execution, key: string, digest: string, response: string, expiresAt: int) {
    x.key == key && x.digest == digest && x.response == response && x.expiresAt == expiresAt
  }

  /** The windows of two executions of one key do not overlap. */
  predicate Disjoint(x: Execution, y: Execution) {
    x.key == y.key ==> x.expiresAt <= y.claimedAt || y.expiresAt <= x.claimedAt
  }

  ghost predicate LogOk(now: int, log: seq<Execution>) {
    && (forall i :: 0 <= i < |log| ==> log[i].claimedAt <= now)
    && (forall i, k :: 0 <= i < k < |log| ==> Disjoint(log[i], log[k]))
  }

  /** The store's view of a past execution whose window is still open. */
  predicate Remembered(now: int, store: Records, x: Execution) {
    x.expiresAt > now ==>
      x.key in store && store[x.key].expiresAt == x.expiresAt && store[x.key].digest == x.digest
      && (!store[x.key].inProgress ==> store[x.key].response == x.response)
  }

  ghost predicate StoreOk(now: int, store: Records, log: seq<Execution>) {
    && (forall i :: 0 <= i < |log| ==> Remembered(now, store, log[i]))
    && (forall key :: key in store && !store[key].inProgress ==>
          Logged(log, key, store[key].digest, store[key].response, store[key].expiresAt))
  }

  /** A completed record somebody keeps: it is the outcome of an execution, and while it is live the
      store has the same record. */
  predicate KeptOk(now: int, store: Records, log: seq<Execution>, key: string, r: Record) {
    && !r.inProgress && Logged(log, key, r.digest, r.response, r.expiresAt)
    && (r.expiresAt > now ==> key in store && store[key] == r)
  }

  predicate Owner(now: int, c: Call) {
    (c.phase.Executing? || c.phase.Ran? || c.phase.Failing?) && now < c.expiresAt
  }

  /** The execution a call will have logged if it succeeds. */
  function Window(c: Call, claimedAt: int): Execution {
    Execution(c.key, c.digest, "", claimedAt, c.expiresAt)
  }

  ghost predicate CallOk(now: int, store: Records, log: seq<Execution>, c: Call) {
    && (Owner(now, c) ==> c.key in store && store[c.key] == Record(c.digest, "", c.expiresAt, true))
    && (c.phase.Executing? ==>
          c.phase.claimedAt <= now && forall i :: 0 <= i < |log| ==> Disjoint(log[i], Window(c, c.phase.claimedAt)))
    && (c.phase.Failing? && Owner(now, c) ==> forall i :: 0 <= i < |log| && log[i].key == c.key ==> log[i].expiresAt <= now)
    && (c.phase.Ran? ==> Logged(log, c.key, c.digest, c.phase.response, c.expiresAt))
    && (c.phase.Warming? || c.phase.Stored? ==> KeptOk(now, store, log, c.key, c.phase.held) && c.phase.held.digest == c.digest)
    && (c.phase.Finished? && c.phase.answer.Response? ==>
          exists t :: Logged(log, c.key, c.digest, c.phase.answer.response, t))
  }

  ghost predicate LocalOk(now: int, store: Records, log: seq<Execution>, local: Records) {
    forall key :: key in local ==> KeptOk(now, store, log, key, local[key])
  }

  ghost predicate OneOwner(now: int, calls: map<int, Call>) {
    forall i, k :: i in calls && k in calls && Owner(now, calls[i]) && Owner(now, calls[k]) && calls[i].key == calls[k].key ==>
      i == k
  }

  /** The windows of two executing calls on one key do not overlap, also when they have ended. */
  ghost predicate ClaimsApart(calls: map<int, Call>) {
    forall i, k :: i in calls && k in calls && i != k && calls[i].phase.Executing? && calls[k].phase.Executing? ==>
      Disjoint(Window(calls[i], calls[i].phase.claimedAt), Window(calls[k], calls[k].phase.claimedAt))
  }

  ghost predicate CallsOk(w: World) {
    forall id :: id in w.calls ==> CallOk(w.now, w.store, w.log, w.calls[id])
  }

  ghost predicate LocalsOk(w: World) {
    forall p :: p in w.locals ==> LocalOk(w.now, w.store, w.log, w.locals[p])
  }

  ghost predicate Inv(w: World) {
    LogOk(w.now, w.log) && StoreOk(w.now, w.store, w.log) && CallsOk(w) && LocalsOk(w) && OneOwner(w.now, w.calls)
    && ClaimsApart(w.calls)
  }
}
