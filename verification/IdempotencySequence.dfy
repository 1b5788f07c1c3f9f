/** Calls one after another, in any number of processes that restart at will: the store and the bounded
    local caches answer as a plain log of the successful executions would. */
module IdempotencySequence {
  import opened Sequences
  import opened Idempotency

  // ---------------------------------------------------------------------------
  // The reference
  // ---------------------------------------------------------------------------

  /** A successful execution of `fn`. */
  datatype Done = Done(key: string, digest: string, response: string, expiresAt: int)

  /** The latest execution under `key`, while its window is open. */
  function Standing(log: seq<Done>, key: string, now: int): Option<Done> {
    if log == [] then None
    else
      var last := log[|log| - 1];
      if last.key != key then Standing(log[..|log| - 1], key, now)
      else if last.expiresAt > now then Some(last)
      else None
  }

  datatype Reference = Reference(now: int, log: seq<Done>, answer: Answer)

  /** While an execution stands, its payload gets its response and any other payload a conflict; otherwise
      `fn` runs, and leaves something behind only if it succeeds. */
  function Refer(now: int, log: seq<Done>, key: string, digest: string, ttl: int, took: nat, fn: FnResult): Reference {
    if key == "" then Reference(now, log, KeyRequired)
    else
      match Standing(log, key, now)
      case Some(d) => Reference(now, log, if d.digest == digest then Response(d.response) else Conflict)
      case None =>
        if fn.Fails? then Reference(now + took, log, Raises)
        else Reference(now + took, log + [Done(key, digest, fn.response, now + ttl)], Response(fn.response))
  }

  // ---------------------------------------------------------------------------
  // The site
  // ---------------------------------------------------------------------------

  /** One store and the local caches of the processes in front of it. */
  datatype Site = Site(now: int, store: Records, locals: map<string, Records>, executions: nat)

  datatype Step =
    | Execution(process: string, key: string, digest: string, ttl: int, took: nat, fn: FnResult)
    | Wait(seconds: nat)
    | Restart(process: string)

  function CacheOf(s: Site, process: string): Records {
    if process in s.locals then s.locals[process] else map[]
  }

  datatype Stepped = Stepped(site: Site, answers: seq<Answer>)

  function TakeStep(s: Site, step: Step): Stepped {
    match step
    case Execution(p, key, digest, ttl, took, fn) =>
      var e := Execute(Side(s.now, s.store, CacheOf(s, p), s.executions, 0), key, digest, ttl, took, fn);
      Stepped(Site(e.side.now, e.side.store, s.locals[p := e.side.local], e.side.executions), [e.answer])
    case Wait(seconds) => Stepped(s.(now := s.now + seconds), [])
    case Restart(p) => Stepped(s.(locals := s.locals - {p}), [])
  }

  function TakeSteps(s: Site, steps: seq<Step>): Stepped
    decreases |steps|
  {
    if steps == [] then Stepped(s, [])
    else
      var first := TakeStep(s, steps[0]);
      var rest := TakeSteps(first.site, steps[1..]);
      Stepped(rest.site, first.answers + rest.answers)
  }

  datatype Referred = Referred(now: int, log: seq<Done>, answers: seq<Answer>)

  function ReferSteps(now: int, log: seq<Done>, steps: seq<Step>): Referred
    decreases |steps|
  {
    if steps == [] then Referred(now, log, [])
    else
      match steps[0]
      case Execution(_, key, digest, ttl, took, fn) =>
        var r := Refer(now, log, key, digest, ttl, took, fn);
        var rest := ReferSteps(r.now, r.log, steps[1..]);
        Referred(rest.now, rest.log, [r.answer] + rest.answers)
      case Wait(seconds) => ReferSteps(now + seconds, log, steps[1..])
      case Restart(_) => ReferSteps(now, log, steps[1..])
  }

  // ---------------------------------------------------------------------------
  // Refinement
  // ---------------------------------------------------------------------------

  function Kept(d: Option<Done>): Option<Record> {
    if d.None? then None else Some(Record(d.value.digest, d.value.response, d.value.expiresAt, false))
  }

  /** A reader of the store sees exactly the execution that stands. */
  ghost predicate StoreShows(now: int, store: Records, log: seq<Done>) {
    forall key :: Live(store, key, now) == Kept(Standing(log, key, now))
  }

  /** What a cache holds live, the store does too. */
  ghost predicate CacheFollows(now: int, store: Records, local: Records) {
    forall key :: Live(local, key, now).Some? ==> Live(local, key, now) == Live(store, key, now)
  }

  ghost predicate Refines(s: Site, log: seq<Done>) {
    && StoreShows(s.now, s.store, log) && s.executions == |log|
    && forall p :: p in s.locals ==> CacheFollows(s.now, s.store, s.locals[p])
  }

  lemma {:induction false} StandingLater(log: seq<Done>, key: string, now: int, later: int)
    requires now <= later
    ensures Standing(log, key, later) ==
      if Standing(log, key, now).Some? && Standing(log, key, now).value.expiresAt > later then Standing(log, key, now) else None
    decreases |log|
  {
    if log != [] { StandingLater(log[..|log| - 1], key, now, later); }
  }

  lemma {:induction false} StoreLater(now: int, later: int, store: Records, log: seq<Done>)
    requires StoreShows(now, store, log) && now <= later
    ensures StoreShows(later, store, log)
  {
    forall key ensures Live(store, key, later) == Kept(Standing(log, key, later)) {
      StandingLater(log, key, now, later);
      assert Live(store, key, now) == Kept(Standing(log, key, now));
    }
  }

  lemma {:induction false} CacheLater(now: int, later: int, store: Records, local: Records)
    requires CacheFollows(now, store, local) && now <= later
    ensures CacheFollows(later, store, local)
  {
    forall key | Live(local, key, later).Some? ensures Live(local, key, later) == Live(store, key, later) {
      assert Live(local, key, now).Some?;
    }
  }

  lemma {:induction false} TimePasses(s: Site, log: seq<Done>, seconds: nat)
    requires Refines(s, log)
    ensures Refines(s.(now := s.now + seconds), log)
  {
    hide StoreShows, CacheFollows;
    StoreLater(s.now, s.now + seconds, s.store, log);
    forall p | p in s.locals ensures CacheFollows(s.now + seconds, s.store, s.locals[p]) {
      CacheLater(s.now, s.now + seconds, s.store, s.locals[p]);
    }
  }

  /** A cache that some entries have been dropped from. */
  lemma {:induction false} FewerFollow(now: int, store: Records, local: Records, local': Records)
    requires CacheFollows(now, store, local) && forall k :: k in local' ==> k in local && local'[k] == local[k]
    ensures CacheFollows(now, store, local')
  {
    assert forall key :: Live(local', key, now).Some? ==> Live(local', key, now) == Live(local, key, now);
  }

  lemma {:induction false} PutFollows(now: int, store: Records, local: Records, key: string, r: Record)
    requires CacheFollows(now, store, local) && key in store && store[key] == r
    ensures CacheFollows(now, store, LocalPut(local, key, r))
  {
    forall k | Live(LocalPut(local, key, r), k, now).Some? ensures Live(LocalPut(local, key, r), k, now) == Live(store, k, now) {
      if k != key { assert Live(LocalPut(local, key, r), k, now) == Live(local, k, now); }
    }
  }

  /** Caches do not notice what happens in the store under a key that is not live. */
  lemma {:induction false} OtherKeyFollows(now: int, store: Records, store': Records, local: Records, key: string)
    requires CacheFollows(now, store, local) && Live(store, key, now).None?
    requires forall k :: k != key ==> Live(store', k, now) == Live(store, k, now)
    ensures CacheFollows(now, store', local)
  {
    assert Live(local, key, now).None?;
  }

  /** A replay or a refusal: the execution that stands decides. */
  lemma {:induction false} StandingDecides(s: Site, log: seq<Done>, p: string, key: string, digest: string, ttl: int, took: nat, fn: FnResult)
    requires Refines(s, log) && key != "" && Standing(log, key, s.now).Some?
    ensures var t, r := TakeStep(s, Execution(p, key, digest, ttl, took, fn)), Refer(s.now, log, key, digest, ttl, took, fn);
      Refines(t.site, r.log) && t.site.now == r.now && t.answers == [r.answer]
  {
    var local := CacheOf(s, p);
    var t := TakeStep(s, Execution(p, key, digest, ttl, took, fn));
    assert Live(s.store, key, s.now) == Kept(Standing(log, key, s.now));
    assert CacheFollows(s.now, s.store, local);
    FewerFollow(s.now, s.store, local, Evicted(local, key, s.now));
    PutFollows(s.now, s.store, Evicted(local, key, s.now), key, s.store[key]);
    hide StoreShows, CacheFollows, Standing, LocalPut, Evicted;
    assert Live(local, key, s.now).Some? ==> Live(local, key, s.now) == Live(s.store, key, s.now) by { CacheSees(s.now, s.store, local, key); }
    assert t.site.store == s.store && t.site.executions == s.executions;
    assert CacheFollows(s.now, s.store, t.site.locals[p]);
    assert forall q :: q in t.site.locals && q != p ==> t.site.locals[q] == s.locals[q];
  }

  lemma {:induction false} CacheSees(now: int, store: Records, local: Records, key: string)
    requires CacheFollows(now, store, local)
    ensures Live(local, key, now).Some? ==> Live(local, key, now) == Live(store, key, now)
  {
  }

  /** The store after an execution. */
  lemma {:induction false} StoreAfter(now: int, store: Records, log: seq<Done>, key: string, digest: string, expiresAt: int, fn: FnResult)
    requires StoreShows(now, store, log) && Standing(log, key, now).None?
    ensures fn.Succeeds? ==>
      StoreShows(now, store[key := Record(digest, fn.response, expiresAt, false)], log + [Done(key, digest, fn.response, expiresAt)])
    ensures fn.Fails? ==> StoreShows(now, store - {key}, log)
  {
    if fn.Succeeds? {
      var d := Done(key, digest, fn.response, expiresAt);
      var store' := store[key := Record(digest, fn.response, expiresAt, false)];
      assert (log + [d])[..|log|] == log;
      forall k ensures Live(store', k, now) == Kept(Standing(log + [d], k, now)) {
        assert Live(store, k, now) == Kept(Standing(log, k, now));
      }
    } else {
      forall k ensures Live(store - {key}, k, now) == Kept(Standing(log, k, now)) {
        assert Live(store, k, now) == Kept(Standing(log, k, now));
      }
    }
  }

  /** What an execution that nothing stands in the way of does to its side. */
  lemma {:induction false} PerformIs(s: Side, key: string, digest: string, ttl: int, took: nat, fn: FnResult)
    requires key != "" && Live(s.local, key, s.now).None? && Live(s.store, key, s.now).None?
    ensures var e, r := Execute(s, key, digest, ttl, took, fn), Record(digest, if fn.Fails? then "" else fn.response, s.now + ttl, false);
      var local := Evicted(s.local, key, s.now);
      && e.side.now == s.now + took
      && (fn.Fails? ==> e.answer == Raises && e.side.store == s.store - {key} && e.side.local == local - {key}
                        && e.side.executions == s.executions)
      && (fn.Succeeds? ==> e.answer == Response(fn.response) && e.side.store == s.store[key := r]
                           && e.side.local == LocalPut(local, key, r) && e.side.executions == s.executions + 1)
  {
    hide LocalPut;
    if fn.Fails? {
      assert s.store[key := Record(digest, "", s.now + ttl, true)] - {key} == s.store - {key};
    } else {
      var r := Record(digest, fn.response, s.now + ttl, false);
      assert s.store[key := Record(digest, "", s.now + ttl, true)][key := r] == s.store[key := r];
    }
  }

  lemma {:induction false} CachesAfter(now: int, store: Records, store': Records, local: Records, key: string, fn: FnResult)
    requires CacheFollows(now, store, local) && Live(store, key, now).None?
    requires if fn.Succeeds? then key in store' && store' == store[key := store'[key]] else store' == store - {key}
    ensures CacheFollows(now, store', local)
    ensures var local1 := Evicted(local, key, now);
      CacheFollows(now, store', if fn.Succeeds? then LocalPut(local1, key, store'[key]) else local1 - {key})
  {
    OtherKeyFollows(now, store, store', local, key);
    FewerFollow(now, store', local, Evicted(local, key, now));
    FewerFollow(now, store', local, Evicted(local, key, now) - {key});
    if fn.Succeeds? { PutFollows(now, store', Evicted(local, key, now), key, store'[key]); }
  }

  /** An execution: nothing stands, so `fn` runs. */
  lemma {:induction false} NothingStands(s: Site, log: seq<Done>, p: string, key: string, digest: string, ttl: int, took: nat, fn: FnResult)
    requires Refines(s, log) && key != "" && Standing(log, key, s.now).None?
    ensures var t, r := TakeStep(s, Execution(p, key, digest, ttl, took, fn)), Refer(s.now, log, key, digest, ttl, took, fn);
      Refines(t.site, r.log) && t.site.now == r.now && t.answers == [r.answer]
  {
    var t, r := TakeStep(s, Execution(p, key, digest, ttl, took, fn)), Refer(s.now, log, key, digest, ttl, took, fn);
    var local := CacheOf(s, p);
    CacheIsThere(s, log, p);
    assert Live(s.store, key, s.now) == Kept(Standing(log, key, s.now));
    CacheSees(s.now, s.store, local, key);
    hide StoreShows, CacheFollows, LocalPut, Evicted, Live, Refines;
    PerformIs(Side(s.now, s.store, local, s.executions, 0), key, digest, ttl, took, fn);
    StoreAfter(s.now, s.store, log, key, digest, s.now + ttl, fn);
    hide Standing;
    CachesAfter(s.now, s.store, t.site.store, local, key, fn);
    hide Execute, CacheOf;
    OtherCachesAfter(s, log, p, key, fn, t.site.store);
    var before := t.site.(now := s.now);
    assert Refines(before, r.log) by { Assembled(before, r.log, s, p); }
    TimePasses(before, r.log, took);
    assert t.site == before.(now := s.now + took);
  }

  lemma {:induction false} CacheIsThere(s: Site, log: seq<Done>, p: string)
    requires Refines(s, log)
    ensures StoreShows(s.now, s.store, log) && s.executions == |log| && CacheFollows(s.now, s.store, CacheOf(s, p))
  {
    assert forall key :: Live(map[], key, s.now).None?;
    hide StoreShows, Live;
  }

  lemma {:induction false} OtherCachesAfter(s: Site, log: seq<Done>, p: string, key: string, fn: FnResult, store': Records)
    requires Refines(s, log) && Live(s.store, key, s.now).None?
    requires if fn.Succeeds? then key in store' && store' == s.store[key := store'[key]] else store' == s.store - {key}
    ensures forall q :: q in s.locals ==> CacheFollows(s.now, store', s.locals[q])
  {
    hide CacheFollows, StoreShows, Live;
    forall q | q in s.locals ensures CacheFollows(s.now, store', s.locals[q]) {
      CachesAfter(s.now, s.store, store', s.locals[q], key, fn);
    }
  }

  lemma {:induction false} Assembled(t: Site, log: seq<Done>, s: Site, p: string)
    requires StoreShows(t.now, t.store, log) && t.executions == |log|
    requires p in t.locals && CacheFollows(t.now, t.store, t.locals[p]) && t.locals == s.locals[p := t.locals[p]]
    requires forall q :: q in s.locals ==> CacheFollows(t.now, t.store, s.locals[q])
    ensures Refines(t, log)
  {
    hide StoreShows, CacheFollows;
    assert forall q :: q in t.locals && q != p ==> q in s.locals && t.locals[q] == s.locals[q];
  }

  lemma {:induction false} NoKey(s: Site, log: seq<Done>, p: string, digest: string, ttl: int, took: nat, fn: FnResult)
    requires Refines(s, log)
    ensures var t, r := TakeStep(s, Execution(p, "", digest, ttl, took, fn)), Refer(s.now, log, "", digest, ttl, took, fn);
      Refines(t.site, r.log) && t.site.now == r.now && t.answers == [r.answer]
  {
    assert CacheFollows(s.now, s.store, CacheOf(s, p));
    hide StoreShows, CacheFollows;
  }

  lemma {:induction false} CallRefines(s: Site, log: seq<Done>, p: string, key: string, digest: string, ttl: int, took: nat, fn: FnResult)
    requires Refines(s, log)
    ensures var t, r := TakeStep(s, Execution(p, key, digest, ttl, took, fn)), Refer(s.now, log, key, digest, ttl, took, fn);
      Refines(t.site, r.log) && t.site.now == r.now && t.answers == [r.answer]
  {
    hide *;
    if key == "" {
      NoKey(s, log, p, digest, ttl, took, fn);
    } else if Standing(log, key, s.now).Some? {
      StandingDecides(s, log, p, key, digest, ttl, took, fn);
    } else {
      NothingStands(s, log, p, key, digest, ttl, took, fn);
    }
  }

  /** Over every sequence of calls by any processes, with any waits and restarts between them, every answer is the
      reference's, and `fn` has run to success exactly once for each execution in the reference's log: a fresh
      key executes, a replay within the window does not, another payload conflicts, an expired or failed
      execution is as if it had never been. */
  lemma {:induction false} SequenceIsReference(s: Site, log: seq<Done>, steps: seq<Step>)
    requires Refines(s, log)
    ensures var t, r := TakeSteps(s, steps), ReferSteps(s.now, log, steps);
      t.answers == r.answers && Refines(t.site, r.log) && t.site.now == r.now
    decreases |steps|
  {
    hide Refines, Refer, Execute, Standing, Live;
    if steps != [] {
      var first := TakeStep(s, steps[0]);
      match steps[0]
      case Execution(p, key, digest, ttl, took, fn) =>
        CallRefines(s, log, p, key, digest, ttl, took, fn);
        hide TakeStep;
        SequenceIsReference(first.site, Refer(s.now, log, key, digest, ttl, took, fn).log, steps[1..]);
      case Wait(seconds) =>
        TimePasses(s, log, seconds);
        SequenceIsReference(first.site, log, steps[1..]);
      case Restart(p) =>
        Restarts(s, log, p);
        SequenceIsReference(first.site, log, steps[1..]);
    }
  }

  lemma {:induction false} Restarts(s: Site, log: seq<Done>, p: string)
    requires Refines(s, log)
    ensures Refines(s.(locals := s.locals - {p}), log)
  {
    hide StoreShows, CacheFollows;
  }

  /** A new site refines the empty log. */
  lemma {:induction false} NewSiteRefines(now: int)
    ensures Refines(Site(now, map[], map[], 0), [])
  {
  }

  // ---------------------------------------------------------------------------
  // A failed execution frees its key
  // ---------------------------------------------------------------------------

  /** Whatever the caches hold, a call after one whose `fn` failed runs its own `fn`. */
  lemma {:induction false} RetryExecutes(s: Side, key: string, digest: string, ttl: int, took: nat,
                                        digest': string, ttl': int, took': nat, fn: FnResult)
    requires Execute(s, key, digest, ttl, took, Fails).answer == Raises
    ensures var s1 := Execute(s, key, digest, ttl, took, Fails).side;
      var e := Execute(s1, key, digest', ttl', took', fn);
      && e.answer == (if fn.Fails? then Raises else Response(fn.response))
      && e.side.executions == s.executions + (if fn.Fails? then 0 else 1) && e.side.now == s.now + took + took'
  {
    hide LocalPut;
    var s1 := Execute(s, key, digest, ttl, took, Fails).side;
    assert key !in s1.store && key !in s1.local;
  }

  // ---------------------------------------------------------------------------
  // The caches are bounded
  // ---------------------------------------------------------------------------

  ghost predicate Bounded(s: Site) {
    forall p :: p in s.locals ==> |s.locals[p]| <= LOCAL_CACHE_MAX
  }

  lemma {:induction false} DropFits(m: Records, key: string)
    ensures |m - {key}| <= |m|
  {
    assert (m - {key}).Keys == m.Keys - {key};
    SubsetSize(m.Keys - {key}, m.Keys);
  }

  lemma {:induction false} PutFits(m: Records, key: string, r: Record)
    requires |m| <= LOCAL_CACHE_MAX
    ensures |LocalPut(m, key, r)| <= LOCAL_CACHE_MAX
  {
    var kept := if |m| >= LOCAL_CACHE_MAX then map[] else m;
    assert kept[key := r].Keys == kept.Keys + {key};
  }

  lemma {:induction false} ExecuteFits(s: Side, key: string, digest: string, ttl: int, took: nat, fn: FnResult)
    requires |s.local| <= LOCAL_CACHE_MAX
    ensures |Execute(s, key, digest, ttl, took, fn).side.local| <= LOCAL_CACHE_MAX
  {
    var local, after := Evicted(s.local, key, s.now), Execute(s, key, digest, ttl, took, fn).side.local;
    CacheAfter(s, key, digest, ttl, took, fn);
    DropFits(s.local, key);
    hide Execute, LocalPut;
    if r :| after == LocalPut(local, key, r) { PutFits(local, key, r); }
    DropFits(local, key);
  }

  /** A call leaves its cache as it was, without an entry, or with one put. */
  lemma {:induction false} CacheAfter(s: Side, key: string, digest: string, ttl: int, took: nat, fn: FnResult)
    ensures var local, after := Evicted(s.local, key, s.now), Execute(s, key, digest, ttl, took, fn).side.local;
      after == s.local || after == local || after == local - {key} || exists r :: after == LocalPut(local, key, r)
  {
    hide LocalPut, Evicted;
  }

  /** No cache ever holds more than its maximum. */
  lemma {:induction false} CachesStayBounded(s: Site, steps: seq<Step>)
    requires Bounded(s)
    ensures Bounded(TakeSteps(s, steps).site)
    decreases |steps|
  {
    if steps != [] {
      if steps[0].Execution? {
        var c := steps[0];
        ExecuteFits(Side(s.now, s.store, CacheOf(s, c.process), s.executions, 0), c.key, c.digest, c.ttl, c.took, c.fn);
      }
      hide Execute;
      CachesStayBounded(TakeStep(s, steps[0]).site, steps[1..]);
    }
  }
}
